/** The overlay of Core's effective settings on the process environment (apps/agents/src/system-config.ts). */
module ConfigOverlay {
  import opened Common

  datatype Source = Db | Env | Default

  datatype Item = Item(key: string, value: string, source: Source)

  function Lookup<T>(m: map<string, T>, key: string): Option<T> {
    if key in m then Some(m[key]) else None
  }

  /** The last item that names the key. */
  function LastNaming(items: seq<Item>, key: string): Option<Item> {
    if items == [] then None
    else if items[|items| - 1].key == key then Some(items[|items| - 1])
    else LastNaming(items[..|items| - 1], key)
  }

  /** The value a key must have: the owner's choice, else the process's own value, else Core's default. */
  function Effective(original: Option<string>, last: Option<Item>): Option<string> {
    if last.None? then original
    else if last.value.source == Db || original.None? then Some(last.value.value)
    else original
  }

  lemma {:induction false} LastOfConcat(a: seq<Item>, b: seq<Item>, key: string)
    ensures LastNaming(a + b, key) == if LastNaming(b, key).Some? then LastNaming(b, key) else LastNaming(a, key)
    decreases |b|
  {
    if b == [] {
      assert a + b == a;
    } else {
      var n := |b| - 1;
      assert (a + b)[..|a + b| - 1] == a + b[..n];
      LastOfConcat(a, b[..n], key);
    }
  }

  lemma LastOfNext(items: seq<Item>, it: Item)
    ensures forall key :: LastNaming(items + [it], key) == if it.key == key then Some(it) else LastNaming(items, key)
  {
    assert (items + [it])[..|items|] == items;
  }

  function CountDb(items: seq<Item>): nat {
    if items == [] then 0 else CountDb(items[..|items| - 1]) + if items[|items| - 1].source == Db then 1 else 0
  }

  lemma CountNext(items: seq<Item>, i: nat)
    requires i < |items|
    ensures items[..i + 1] == items[..i] + [items[i]]
    ensures CountDb(items[..i + 1]) == CountDb(items[..i]) + if items[i].source == Db then 1 else 0
  {
    assert items[..i + 1][..i] == items[..i];
  }

  /** Each key depends only on its original value and the last item naming it. */
  ghost predicate Explained(env: map<string, string>, baseline: map<string, Option<string>>,
                            original: map<string, string>, history: seq<Item>) {
    && (forall key :: Lookup(env, key) == Effective(Lookup(original, key), LastNaming(history, key)))
    && (forall key :: key in baseline <==> LastNaming(history, key).Some?)
    && (forall key :: key in baseline ==> baseline[key] == Lookup(original, key))
  }

  lemma ExplainedNext(env: map<string, string>, baseline: map<string, Option<string>>, original: map<string, string>,
                      history: seq<Item>,
                      it: Item, env': map<string, string>, baseline': map<string, Option<string>>)
    requires Explained(env, baseline, original, history)
    requires baseline' == if it.key in baseline then baseline else baseline[it.key := Lookup(env, it.key)]
    requires it.key in baseline'
    requires var restores := it.source != Db && baseline'[it.key].Some?;
             env' == env[it.key := if restores then baseline'[it.key].value else it.value]
    ensures Explained(env', baseline', original, history + [it])
  {
    LastOfNext(history, it);
    var first := LastNaming(history, it.key).None?;
    assert first ==> Lookup(env, it.key) == Lookup(original, it.key);
    forall key ensures Lookup(env', key) == Effective(Lookup(original, key), LastNaming(history + [it], key)) {
      if key != it.key { assert Lookup(env', key) == Lookup(env, key); }
    }
  }

  class EnvOverlay {
    var env: map<string, string>
    /** What each key held when an item first named it; None when it was not set. */
    var baseline: map<string, Option<string>>
    ghost const original: map<string, string>
    ghost var history: seq<Item>

    constructor (env: map<string, string>)
      ensures Valid() && this.env == env && original == env && history == []
    {
      this.env := env;
      baseline := map[];
      original := env;
      history := [];
    }

    ghost predicate Valid()
      reads this
    {
      Explained(env, baseline, original, history)
    }

    method OverlayOne(it: Item)
      requires Valid()
      modifies this
      ensures Valid() && history == old(history) + [it]
    {
      ghost var env0, baseline0 := env, baseline;
      if it.key !in baseline { baseline := baseline[it.key := Lookup(env, it.key)]; }
      if it.source == Db {
        env := env[it.key := it.value];
      } else {
        var own := baseline[it.key];
        env := env[it.key := if own.Some? then own.value else it.value];
      }
      ExplainedNext(env0, baseline0, original, history, it, env, baseline);
      history := history + [it];
    }

    /** `overlayEnv`; `fromDb` counts the owner's choices. */
    method Overlay(items: seq<Item>) returns (fromDb: nat)
      requires Valid()
      modifies this
      ensures Valid() && history == old(history) + items && fromDb == CountDb(items)
    {
      fromDb := 0;
      for i := 0 to |items|
        invariant Valid() && history == old(history) + items[..i] && fromDb == CountDb(items[..i])
      {
        CountNext(items, i);
        OverlayOne(items[i]);
        if items[i].source == Db { fromDb := fromDb + 1; }
      }
      assert items[..|items|] == items;
    }

    /** When the last item naming a key is not the owner's, the process's own value is back. */
    lemma RemovalRestores(key: string)
      requires Valid() && key in original && LastNaming(history, key).Some?
               && LastNaming(history, key).value.source != Db
      ensures key in env && env[key] == original[key]
    {
      assert Lookup(env, key) == Some(original[key]);
    }

    /** Two histories that end alike for a key leave it alike, however they differ before. */
    lemma OnlyLastMatters(before: seq<Item>, after: seq<Item>, key: string)
      requires Valid() && history == before + after && LastNaming(after, key).Some?
      ensures Lookup(env, key) == Effective(Lookup(original, key), LastNaming(after, key))
    {
      LastOfConcat(before, after, key);
    }
  }
}
