/** The result tally of the validator, independent of how an entry's fate is decided:
    the counts start with two fixed counters at zero, every entry that does not crash
    raises exactly one counter by one, and the first crash ends the run. */
module Tallies {
  import opened Wrappers

  /** The two counters the tally starts with. */
  const ErrorsKey := "errors"
  const UnknownKey := "wrong/unknown type"

  /** How looking at an entry can abort the whole run: indexing something that is
      not a dictionary, a dictionary without `@type`, or an `@type` holding a list or
      a dictionary, which cannot be looked up in the dispatcher table. */
  datatype CrashKind = NotAnObject | MissingType | UnhashableType

  /** The run stopped at entry `index`. */
  datatype Crash = Crash(index: nat, kind: CrashKind)

  /** What one entry that does not crash contributes to the tally. */
  datatype Outcome =
    | Unknown
    | Invalid
    | Valid(typeName: string)

  /** The fate of one entry: it crashes the run, or it has an outcome. */
  type Fate = Result<Outcome, CrashKind>

  /** The counter an outcome increments. */
  function Label(o: Outcome): string
  {
    match o
    case Unknown => UnknownKey
    case Invalid => ErrorsKey
    case Valid(t) => t
  }

  /** A counter's value, zero when it has not been created. */
  function Count(c: map<string, nat>, key: string): nat
  {
    if key in c then c[key] else 0
  }

  /** The counts after one more entry with outcome `o`. */
  function Record(c: map<string, nat>, o: Outcome): (after: map<string, nat>)
    ensures BumpedOnce(c, after, Label(o))
  {
    c[Label(o) := Count(c, Label(o)) + 1]
  }

  /** One turn of the loop: the entry at `index`, whose fate is `fate`, met with `acc`. */
  function Step(acc: Result<map<string, nat>, Crash>, fate: Fate, index: nat): Result<map<string, nat>, Crash>
  {
    match acc
    case Err(crash) => Err(crash)
    case Ok(c) =>
      match fate
      case Err(kind) => Err(Crash(index, kind))
      case Ok(o) => Ok(Record(c, o))
  }

  /** The tally of a run whose entries have the fates `fates`, in order. */
  function Accumulate(fates: seq<Fate>): (r: Result<map<string, nat>, Crash>)
    ensures r.Ok? ==> ErrorsKey in r.value && UnknownKey in r.value
    decreases |fates|
  {
    if |fates| == 0 then Ok(map[ErrorsKey := 0, UnknownKey := 0])
    else Step(Accumulate(fates[..|fates| - 1]), fates[|fates| - 1], |fates| - 1)
  }

  // ----------------------------------------------------------------------------
  // Crashes
  // ----------------------------------------------------------------------------

  /** No entry crashes the run. */
  predicate NoCrash(fates: seq<Fate>)
  {
    forall j :: 0 <= j < |fates| ==> fates[j].Ok?
  }

  /** Once a prefix has crashed, the rest of the entries are never looked at. */
  lemma {:induction false} AccumulateKeepsCrash(fates: seq<Fate>, n: nat)
    requires n <= |fates| && Accumulate(fates[..n]).Err?
    ensures Accumulate(fates) == Accumulate(fates[..n])
    decreases |fates| - n
  {
    if n < |fates| {
      var last := |fates| - 1;
      assert fates[..last][..n] == fates[..n];
      AccumulateKeepsCrash(fates[..last], n);
    } else {
      assert fates[..n] == fates;
    }
  }

  /** The run completes exactly when no entry crashes it. */
  lemma {:induction false} AccumulateCompletes(fates: seq<Fate>)
    ensures Accumulate(fates).Ok? <==> NoCrash(fates)
    decreases |fates|
  {
    if |fates| > 0 {
      var last := |fates| - 1;
      AccumulateCompletes(fates[..last]);
      assert NoCrash(fates) <==> NoCrash(fates[..last]) && fates[last].Ok? by {
        if NoCrash(fates[..last]) && fates[last].Ok? {
          forall j | 0 <= j < |fates|
            ensures fates[j].Ok?
          {
            if j < last {
              assert fates[j] == fates[..last][j];
            }
          }
        }
      }
    }
  }

  /** A crashed run names an entry that crashes it, and that entry's crash kind. */
  lemma {:induction false} AccumulateCrash(fates: seq<Fate>)
    requires Accumulate(fates).Err?
    ensures var crash := Accumulate(fates).error;
            crash.index < |fates| && fates[crash.index] == Err(crash.kind)
    decreases |fates|
  {
    var last := |fates| - 1;
    if Accumulate(fates[..last]).Err? {
      AccumulateCrash(fates[..last]);
    }
  }

  /** The run reports the first entry that crashes it, and why. */
  lemma AccumulateFirstCrash(fates: seq<Fate>, i: nat)
    requires i < |fates| && fates[i].Err? && NoCrash(fates[..i])
    ensures Accumulate(fates) == Err(Crash(i, fates[i].error))
  {
    AccumulateCompletes(fates[..i]);
    assert fates[..i + 1][..i] == fates[..i];
    AccumulateKeepsCrash(fates, i + 1);
  }

  // ----------------------------------------------------------------------------
  // What each entry does to the counts
  // ----------------------------------------------------------------------------

  /** Counts `after` are counts `before` with counter `key`, and only it, raised by
      one; the counter is created at 1 when it was missing. */
  predicate BumpedOnce(before: map<string, nat>, after: map<string, nat>, key: string)
  {
    && after.Keys == before.Keys + {key}
    && Count(after, key) == Count(before, key) + 1
    && forall k :: k in before && k != key ==> after[k] == before[k]
  }

  /** An entry that does not crash raises exactly the counter its outcome names. */
  lemma AppendFate(fates: seq<Fate>, fate: Fate)
    requires Accumulate(fates + [fate]).Ok?
    ensures Accumulate(fates).Ok? && fate.Ok?
    ensures BumpedOnce(Accumulate(fates).value, Accumulate(fates + [fate]).value, Label(fate.value))
  {
    assert (fates + [fate])[..|fates|] == fates;
  }

  // ----------------------------------------------------------------------------
  // The counts of a completed run
  // ----------------------------------------------------------------------------

  /** 1 when the entry is counted under `key`, else 0. */
  function Hit(fate: Fate, key: string): nat
  {
    if fate.Ok? && Label(fate.value) == key then 1 else 0
  }

  /** The number of entries counted under `key`. */
  function Hits(fates: seq<Fate>, key: string): nat
    decreases |fates|
  {
    if |fates| == 0 then 0 else Hits(fates[..|fates| - 1], key) + Hit(fates[|fates| - 1], key)
  }

  /** The counters of a completed run: the two fixed ones, plus one per outcome label
      met at least once; each holds the number of entries counted under it. */
  lemma {:induction false} AccumulateCounts(fates: seq<Fate>)
    requires Accumulate(fates).Ok?
    ensures forall key :: Count(Accumulate(fates).value, key) == Hits(fates, key)
    ensures forall key :: key in Accumulate(fates).value <==>
              key == ErrorsKey || key == UnknownKey || Hits(fates, key) > 0
    decreases |fates|
  {
    if |fates| > 0 {
      AccumulateCounts(fates[..|fates| - 1]);
    }
  }

  /** A key counted at least once is the label of some entry's outcome. */
  lemma {:induction false} HitsWitness(fates: seq<Fate>, key: string)
    requires Hits(fates, key) > 0
    ensures exists j :: 0 <= j < |fates| && fates[j].Ok? && Label(fates[j].value) == key
    decreases |fates|
  {
    var last := |fates| - 1;
    if Hit(fates[last], key) == 0 {
      HitsWitness(fates[..last], key);
      var j :| 0 <= j < last && fates[..last][j].Ok? && Label(fates[..last][j].value) == key;
      assert fates[j] == fates[..last][j];
    }
  }

  /** Some key of a non-empty map. */
  ghost function SomeKey(m: map<string, nat>): (k: string)
    requires m != map[]
    ensures k in m
  {
    var k :| k in m; k
  }

  /** The sum of all the counts. */
  ghost function Total(m: map<string, nat>): nat
    decreases m.Keys
  {
    if m == map[] then 0
    else
      var k := SomeKey(m);
      m[k] + Total(m - {k})
  }

  /** Any key can be taken out of the sum, not only the one Total picks. */
  lemma {:induction false} TotalWithout(m: map<string, nat>, k: string)
    requires k in m
    ensures Total(m) == m[k] + Total(m - {k})
    decreases m.Keys
  {
    var j := SomeKey(m);
    if j != k {
      TotalWithout(m - {j}, k);
      TotalWithout(m - {k}, j);
      assert m - {j} - {k} == m - {k} - {j};
    }
  }

  /** Raising one counter by one raises the sum by one. */
  lemma TotalBump(m: map<string, nat>, key: string)
    ensures Total(m[key := Count(m, key) + 1]) == Total(m) + 1
  {
    var m' := m[key := Count(m, key) + 1];
    TotalWithout(m', key);
    if key in m {
      TotalWithout(m, key);
      assert m' - {key} == m - {key};
    } else {
      assert m' - {key} == m;
    }
  }

  /** The two counters a run starts with sum to zero. */
  lemma TotalAtStart()
    ensures Total(map[ErrorsKey := 0, UnknownKey := 0]) == 0
  {
    var m := map[ErrorsKey := 0, UnknownKey := 0];
    TotalWithout(m, ErrorsKey);
    assert m - {ErrorsKey} == map[UnknownKey := 0];
    TotalWithout(map[UnknownKey := 0], UnknownKey);
    assert map[UnknownKey := 0] - {UnknownKey} == map[];
  }

  /** The counts of a completed run add up to the number of entries. */
  lemma {:induction false} AccumulateSum(fates: seq<Fate>)
    requires Accumulate(fates).Ok?
    ensures Total(Accumulate(fates).value) == |fates|
    decreases |fates|
  {
    if |fates| == 0 {
      TotalAtStart();
    } else {
      var last := |fates| - 1;
      AccumulateSum(fates[..last]);
      TotalBump(Accumulate(fates[..last]).value, Label(fates[last].value));
    }
  }

  // ----------------------------------------------------------------------------
  // Order independence
  // ----------------------------------------------------------------------------

  /** Counting splits over a concatenation. */
  lemma {:induction false} HitsAppend(a: seq<Fate>, b: seq<Fate>, key: string)
    ensures Hits(a + b, key) == Hits(a, key) + Hits(b, key)
    decreases |b|
  {
    if |b| == 0 {
      assert a + b == a;
    } else {
      var last := |b| - 1;
      assert (a + b)[..|a + b| - 1] == a + b[..last];
      HitsAppend(a, b[..last], key);
    }
  }

  /** How many entries are counted under a key depends only on which fates there
      are, not on their order. */
  lemma {:induction false} HitsPermutation(a: seq<Fate>, b: seq<Fate>, key: string)
    requires multiset(a) == multiset(b)
    ensures Hits(a, key) == Hits(b, key)
    decreases |a|
  {
    if |a| == 0 {
      assert |b| == |multiset(b)| == 0;
    } else {
      var last := |a| - 1;
      var x := a[last];
      assert a == a[..last] + [x];
      assert x in multiset(b);
      var k :| 0 <= k < |b| && b[k] == x;
      assert b == b[..k] + [x] + b[k + 1..];
      var rest := b[..k] + b[k + 1..];
      assert multiset(a) == multiset(a[..last]) + multiset{x};
      assert multiset(b) == multiset(b[..k]) + multiset{x} + multiset(b[k + 1..]);
      assert multiset(rest) == multiset(b[..k]) + multiset(b[k + 1..]);
      assert multiset(a[..last]) == multiset(a) - multiset{x};
      assert multiset(rest) == multiset(b) - multiset{x};
      HitsPermutation(a[..last], rest, key);
      HitsAppend(b[..k] + [x], b[k + 1..], key);
      HitsAppend(b[..k], [x], key);
      HitsAppend(b[..k], b[k + 1..], key);
      assert [x][..0] == [];
    }
  }

  /** Reordering the entries of a run that completes yields the same tally. */
  lemma AccumulateOrderIndependent(a: seq<Fate>, b: seq<Fate>)
    requires multiset(a) == multiset(b) && Accumulate(a).Ok?
    ensures Accumulate(b) == Accumulate(a)
  {
    AccumulateCompletes(a);
    forall j | 0 <= j < |b|
      ensures b[j].Ok?
    {
      assert b[j] in multiset(a);
    }
    AccumulateCompletes(b);
    AccumulateCounts(a);
    AccumulateCounts(b);
    forall key
      ensures Hits(a, key) == Hits(b, key)
    {
      HitsPermutation(a, b, key);
    }
    var ca := Accumulate(a).value;
    var cb := Accumulate(b).value;
    assert ca.Keys == cb.Keys;
    forall k | k in ca
      ensures ca[k] == cb[k]
    {
      assert Count(ca, k) == Count(cb, k);
    }
    assert ca == cb;
  }
}
