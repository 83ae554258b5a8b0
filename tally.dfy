/** The label-count dictionary both statistics builders produce, with the
    facts they share: its keys are exactly the labels seen, each value is the
    label's number of occurrences, and the values add up to the list length. */
module Tally {

  /** How often `key` occurs in `keys`. */
  function Occurrences(keys: seq<string>, key: string): nat
  {
    if keys == [] then 0
    else Occurrences(keys[..|keys| - 1], key) + (if keys[|keys| - 1] == key then 1 else 0)
  }

  /** The dictionary a loop builds with `d[k] = d.get(k, 0) + 1` over `keys`,
      in order. */
  function Counts(keys: seq<string>): map<string, nat>
  {
    if keys == [] then map[]
    else
      var m := Counts(keys[..|keys| - 1]);
      var k := keys[|keys| - 1];
      m[k := (if k in m then m[k] else 0) + 1]
  }

  /** The keys are exactly the keys seen, and each value is the key's
      number of occurrences, so never zero. */
  lemma {:induction false} CountsMeaning(keys: seq<string>)
    ensures forall k :: k in Counts(keys) <==> k in keys
    ensures forall k :: k in Counts(keys) ==> Counts(keys)[k] == Occurrences(keys, k) && Counts(keys)[k] > 0
  {
    if keys != [] {
      var init := keys[..|keys| - 1];
      var k := keys[|keys| - 1];
      assert keys == init + [k];
      CountsMeaning(init);
      if k !in Counts(init) {
        OccurrencesAbsent(init, k);
      }
    }
  }

  /** One more key adds one to its count and leaves the others. */
  lemma CountsStep(keys: seq<string>, k: string)
    ensures Counts(keys + [k]) == Counts(keys)[k := (if k in Counts(keys) then Counts(keys)[k] else 0) + 1]
  {
    assert (keys + [k])[..|keys|] == keys;
  }

  lemma {:induction false} OccurrencesAbsent(keys: seq<string>, key: string)
    requires key !in keys
    ensures Occurrences(keys, key) == 0
  {
    if keys != [] {
      OccurrencesAbsent(keys[..|keys| - 1], key);
    }
  }

  /** The sum of a dictionary's values (`sum(d.values())`). */
  ghost function Total(m: map<string, nat>): nat
    decreases |m.Keys|
  {
    if m == map[] then 0
    else
      var k :| k in m;
      assert |(m - {k}).Keys| < |m.Keys| by { assert (m - {k}).Keys == m.Keys - {k}; }
      m[k] + Total(m - {k})
  }

  /** Any key can be taken out first when summing. */
  lemma {:induction false} TotalRemove(m: map<string, nat>, k: string)
    requires k in m
    ensures Total(m) == m[k] + Total(m - {k})
    decreases |m.Keys|
  {
    var j :| j in m && Total(m) == m[j] + Total(m - {j});
    if j != k {
      var mj, mk := m - {j}, m - {k};
      assert (mj - {k}) == (mk - {j});
      assert |mj.Keys| < |m.Keys| by { assert mj.Keys == m.Keys - {j}; }
      assert |mk.Keys| < |m.Keys| by { assert mk.Keys == m.Keys - {k}; }
      TotalRemove(mj, k);
      TotalRemove(mk, j);
    }
  }

  lemma TotalUpdate(m: map<string, nat>, k: string, v: nat)
    ensures Total(m[k := v]) == v + Total(m - {k})
    ensures k in m ==> Total(m) == m[k] + Total(m - {k})
  {
    TotalRemove(m[k := v], k);
    assert m[k := v] - {k} == m - {k};
    if k in m {
      TotalRemove(m, k);
    }
  }

  /** The counts of a list add up to its length. */
  lemma {:induction false} CountsTotal(keys: seq<string>)
    ensures Total(Counts(keys)) == |keys|
  {
    if keys != [] {
      var init := keys[..|keys| - 1];
      var m := Counts(init);
      var k := keys[|keys| - 1];
      var v := (if k in m then m[k] else 0) + 1;
      assert Counts(keys) == m[k := v];
      CountsTotal(init);
      TotalUpdate(m, k, v);
      if k !in m {
        assert m - {k} == m;
      }
    }
  }
}
