/** Port labels built from channel names, as the f-strings of blocks.py build them. */
module Names {

  /** `[f"{prefix}{name}" for name in names]`. */
  function Prefixed(prefix: string, names: seq<string>): (r: seq<string>)
    ensures |r| == |names|
    ensures forall i :: 0 <= i < |names| ==> r[i] == prefix + names[i]
  {
    seq(|names|, i requires 0 <= i < |names| => prefix + names[i])
  }

  /** `[f"{name}{suffix}" for name in names]`. */
  function Suffixed(names: seq<string>, suffix: string): (r: seq<string>)
    ensures |r| == |names|
    ensures forall i :: 0 <= i < |names| ==> r[i] == names[i] + suffix
  {
    seq(|names|, i requires 0 <= i < |names| => names[i] + suffix)
  }

  /** No label occurs twice. */
  predicate Distinct(xs: seq<string>) {
    forall i, j :: 0 <= i < j < |xs| ==> xs[i] != xs[j]
  }

  lemma PrefixCancels(prefix: string, a: string, b: string)
    ensures prefix + a == prefix + b <==> a == b
  {
    if prefix + a == prefix + b {
      assert a == (prefix + a)[|prefix|..];
      assert b == (prefix + b)[|prefix|..];
    }
  }

  lemma SuffixCancels(a: string, b: string, suffix: string)
    ensures a + suffix == b + suffix <==> a == b
  {
    if a + suffix == b + suffix {
      assert |a| == |b|;
      assert a == (a + suffix)[..|a|];
      assert b == (b + suffix)[..|b|];
    }
  }

  /** Prefixing keeps distinct channel names distinct, and only distinct names
      give distinct labels: two channels never share a port. */
  lemma PrefixedDistinctIff(prefix: string, names: seq<string>)
    ensures Distinct(Prefixed(prefix, names)) <==> Distinct(names)
  {
    var r := Prefixed(prefix, names);
    forall i, j | 0 <= i < j < |names|
      ensures r[i] != r[j] <==> names[i] != names[j]
    {
      PrefixCancels(prefix, names[i], names[j]);
    }
  }

  lemma SuffixedDistinctIff(names: seq<string>, suffix: string)
    ensures Distinct(Suffixed(names, suffix)) <==> Distinct(names)
  {
    var r := Suffixed(names, suffix);
    forall i, j | 0 <= i < j < |names|
      ensures r[i] != r[j] <==> names[i] != names[j]
    {
      SuffixCancels(names[i], names[j], suffix);
    }
  }

  /** The channel names can be read back from the labels. */
  lemma PrefixedInjective(prefix: string, xs: seq<string>, ys: seq<string>)
    ensures Prefixed(prefix, xs) == Prefixed(prefix, ys) <==> xs == ys
  {
    if Prefixed(prefix, xs) == Prefixed(prefix, ys) {
      assert |xs| == |ys|;
      forall i | 0 <= i < |xs| ensures xs[i] == ys[i] {
        PrefixCancels(prefix, xs[i], ys[i]);
      }
    }
  }
}
