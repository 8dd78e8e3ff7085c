/**
 * Running a sequence of rewrite steps over a record, stopping at the first
 * failure. When each step rewrites one field of its own, leaves the rest
 * alone, and reads only its own field (and one shared field, such as a
 * rule's name), the steps do not interfere: running them in order is the
 * same as running each on the original record.
 */
module Staged {
  import opened Wrappers

  /** The rule after the first `n` of a sequence of steps, or the first failing step's exception. */
  function Stages<V>(step: (nat, V) -> Result<V>, rule: V, n: nat): Result<V> {
    if n == 0 then Ok(rule)
    else
      var prev :- Stages(step, rule, n - 1);
      step(n - 1, prev)
  }

  /** Step `i` keeps a dict a dict and changes no field but `keys[i]`. */
  ghost predicate StepsFramed<V(!new), K(!new)>(step: (nat, V) -> Result<V>, get: (V, K) -> Option<V>, dict: V -> bool, keys: seq<K>) {
    forall i: nat, r: V | i < |keys| && step(i, r).Ok? ::
      (dict(step(i, r).value) <==> dict(r)) && forall k | k != keys[i] :: get(step(i, r).value, k) == get(r, k)
  }

  /** Step `i`'s outcome on `keys[i]` depends only on what a dict holds there and under `name`. */
  ghost predicate StepsLocal<V(!new), K(!new)>(step: (nat, V) -> Result<V>, get: (V, K) -> Option<V>, dict: V -> bool, keys: seq<K>, name: K) {
    forall i: nat, a: V, b: V {:trigger step(i, a), step(i, b)} |
      i < |keys| && dict(a) && dict(b) && get(a, keys[i]) == get(b, keys[i]) && get(a, name) == get(b, name) ::
      (step(i, a).Ok? <==> step(i, b).Ok?) &&
      (step(i, a).Ok? ==> get(step(i, a).value, keys[i]) == get(step(i, b).value, keys[i]))
  }

  /**
   * After the first `n` framed steps on distinct fields a dict is still a
   * dict, and only those steps' fields have changed.
   */
  lemma {:induction false} StagesFrame<V(!new), K(!new)>(step: (nat, V) -> Result<V>, get: (V, K) -> Option<V>, dict: V -> bool, keys: seq<K>, rule: V, n: nat)
    requires StepsFramed(step, get, dict, keys) && dict(rule) && n <= |keys|
    requires forall i, j | 0 <= i < j < |keys| :: keys[i] != keys[j]
    ensures Stages(step, rule, n).Ok? ==> dict(Stages(step, rule, n).value)
    ensures Stages(step, rule, n).Ok? ==> forall k | k !in keys :: get(Stages(step, rule, n).value, k) == get(rule, k)
    ensures Stages(step, rule, n).Ok? ==> forall j | n <= j < |keys| :: get(Stages(step, rule, n).value, keys[j]) == get(rule, keys[j])
  {
    if n > 0 {
      StagesFrame(step, get, dict, keys, rule, n - 1);
      var s := Stages(step, rule, n - 1);
      if s.Ok? && step(n - 1, s.value).Ok? {
        var cur := step(n - 1, s.value).value;
        assert dict(cur);
        forall k | k !in keys
          ensures get(cur, k) == get(rule, k)
        {
          assert k != keys[n - 1];
        }
        forall j | n <= j < |keys|
          ensures get(cur, keys[j]) == get(rule, keys[j])
        {
          assert keys[j] != keys[n - 1];
        }
      }
    }
  }

  /**
   * Framed, local steps on distinct fields other than `name` do not
   * interfere: the first `n` succeed exactly when each succeeds on the rule
   * as given, and each rewritten field is what its own step makes of it.
   */
  lemma {:induction false} StagesIndependent<V(!new), K(!new)>(step: (nat, V) -> Result<V>, get: (V, K) -> Option<V>, dict: V -> bool, keys: seq<K>, name: K, rule: V, n: nat)
    requires StepsFramed(step, get, dict, keys) && StepsLocal(step, get, dict, keys, name) && dict(rule) && n <= |keys|
    requires name !in keys && forall i, j | 0 <= i < j < |keys| :: keys[i] != keys[j]
    ensures Stages(step, rule, n).Ok? <==> forall i | 0 <= i < n :: step(i, rule).Ok?
    ensures Stages(step, rule, n).Ok? ==>
              forall i | 0 <= i < n :: get(Stages(step, rule, n).value, keys[i]) == get(step(i, rule).value, keys[i])
  {
    if n > 0 {
      StagesIndependent(step, get, dict, keys, name, rule, n - 1);
      var s := Stages(step, rule, n - 1);
      if s.Ok? {
        var prev := s.value;
        StagesFrame(step, get, dict, keys, rule, n - 1);
        assert dict(prev) && get(prev, keys[n - 1]) == get(rule, keys[n - 1]) && get(prev, name) == get(rule, name);
        var cur := step(n - 1, prev);
        assert cur.Ok? <==> step(n - 1, rule).Ok?;
        if cur.Ok? {
          forall i | 0 <= i < n - 1
            ensures get(cur.value, keys[i]) == get(prev, keys[i])
          {
            assert keys[i] != keys[n - 1];
          }
        }
      }
    }
  }
}
