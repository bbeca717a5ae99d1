/**
 * Object keys `f"{component}_{solid}"` and the dictionary that a loop builds by
 * assigning `d[key] = value` in iteration order, where a later key overwrites an
 * earlier equal one.
 */
module Naming {

  /** The key under which a solid of a component is published. */
  function Key(comp: string, solid: string): (k: string)
    ensures |k| == |comp| + 1 + |solid|
    ensures k[..|comp|] == comp && k[|comp|] == '_' && k[|comp| + 1..] == solid
  {
    comp + "_" + solid
  }

  /** Two different (component, solid) pairs can be published under the same key. */
  lemma KeysCollide()
    ensures ("a_b", "c") != ("a", "b_c") && Key("a_b", "c") == Key("a", "b_c")
  {
    assert Key("a_b", "c") == "a_b_c";
    assert Key("a", "b_c") == "a_b_c";
  }

  /** The dictionary left by `for k, v in kvs: d[k] = v`, starting from `{}`. */
  function Collect<K, V>(kvs: seq<(K, V)>): (m: map<K, V>)
    ensures m.Keys == set i | 0 <= i < |kvs| :: kvs[i].0
  {
    if kvs == [] then map[]
    else
      var init := kvs[..|kvs| - 1];
      var last := kvs[|kvs| - 1];
      assert (set i | 0 <= i < |kvs| :: kvs[i].0)
          == (set i | 0 <= i < |init| :: init[i].0) + {last.0};
      Collect(init)[last.0 := last.1]
  }

  /** One more assignment `d[k] = v` at the end of the loop. */
  lemma CollectSnoc<K, V>(kvs: seq<(K, V)>, e: (K, V))
    ensures Collect(kvs + [e]) == Collect(kvs)[e.0 := e.1]
  {
    assert (kvs + [e])[..|kvs + [e]| - 1] == kvs;
  }

  /** The value stored under a key is the one of the LAST pair carrying that key. */
  lemma {:induction false} CollectLastWins<K, V>(kvs: seq<(K, V)>, k: K)
    requires k in Collect(kvs)
    ensures exists i :: 0 <= i < |kvs| && kvs[i] == (k, Collect(kvs)[k])
                        && forall j :: i < j < |kvs| ==> kvs[j].0 != k
  {
    var n := |kvs|;
    if kvs[n - 1].0 == k {
      assert kvs[n - 1] == (k, Collect(kvs)[k]);
    } else {
      var init := kvs[..n - 1];
      CollectLastWins(init, k);
      var i :| 0 <= i < |init| && init[i] == (k, Collect(init)[k])
               && forall j :: i < j < |init| ==> init[j].0 != k;
      assert kvs[i] == (k, Collect(kvs)[k]);
      forall j | i < j < n ensures kvs[j].0 != k {
        if j < n - 1 { assert init[j] == kvs[j]; }
      }
    }
  }

  /** Every stored value is the value of some pair with that key. */
  lemma CollectValueFrom<K, V>(kvs: seq<(K, V)>, k: K)
    requires k in Collect(kvs)
    ensures exists i :: 0 <= i < |kvs| && kvs[i] == (k, Collect(kvs)[k])
  {
    CollectLastWins(kvs, k);
  }

  /** Without collisions every pair survives unchanged. */
  lemma CollectDistinct<K, V>(kvs: seq<(K, V)>, i: nat)
    requires i < |kvs|
    requires forall a, b :: 0 <= a < b < |kvs| ==> kvs[a].0 != kvs[b].0
    ensures Collect(kvs)[kvs[i].0] == kvs[i].1
  {
    var k := kvs[i].0;
    CollectLastWins(kvs, k);
    var a :| 0 <= a < |kvs| && kvs[a] == (k, Collect(kvs)[k])
             && forall j :: a < j < |kvs| ==> kvs[j].0 != k;
    if a < i { assert kvs[i].0 == k; }
    else if i < a { assert kvs[a].0 == kvs[i].0; }
  }
}
