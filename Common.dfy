/** Small shared vocabulary: optional values, Python slicing, subsequences,
    rearrangements and the first-success search used by every retry loop. */
module Common {

  datatype Option<+T> = None | Some(value: T)

  /** Python's normalisation of a slice bound against a sequence of length n:
      a negative bound counts from the end, then the bound is clamped to [0, n]. */
  function ClampIndex(i: int, n: nat): (r: nat)
    ensures r <= n
    ensures 0 <= i <= n ==> r == i
    ensures i > n ==> r == n
    ensures i < 0 ==> r == if i + n < 0 then 0 else i + n
  {
    if i < 0 then (if i + n < 0 then 0 else i + n)
    else if i > n then n
    else i
  }

  lemma ClampWidth(lo: int, hi: int, n: nat)
    requires lo <= hi
    ensures ClampIndex(hi, n) - ClampIndex(lo, n) <= hi - lo
  {
    if lo < 0 && hi < 0 {
    } else if lo < 0 {
      if lo + n < 0 {
        assert ClampIndex(lo, n) == 0;
      } else {
        assert ClampIndex(lo, n) == lo + n;
      }
      assert ClampIndex(hi, n) <= hi;
    } else {
      assert ClampIndex(lo, n) == if lo <= n then lo else n;
    }
  }

  /** Python's `s[lo:hi]` (step 1): a contiguous run of `s` starting at the
      normalised `lo`, never longer than `hi - lo`. */
  function PySlice<T>(s: seq<T>, lo: int, hi: int): (r: seq<T>)
    ensures |r| <= |s|
    ensures lo <= hi ==> |r| <= hi - lo
    ensures ClampIndex(lo, |s|) + |r| <= |s| && r == s[ClampIndex(lo, |s|)..ClampIndex(lo, |s|) + |r|]
    ensures 0 <= lo <= hi ==> r == s[(if lo <= |s| then lo else |s|)..(if hi <= |s| then hi else |s|)]
  {
    var a := ClampIndex(lo, |s|);
    var b := ClampIndex(hi, |s|);
    if a <= b then (if lo <= hi then ClampWidth(lo, hi, |s|); s[a..b] else s[a..b])
    else s[a..a]
  }

  /** Python's `s[:k]`. */
  function PyPrefix<T>(s: seq<T>, k: int): (r: seq<T>)
    ensures k >= 0 ==> r == s[..if k <= |s| then k else |s|]
    ensures k >= 0 ==> |r| <= k
    ensures |r| <= |s| && r == s[..|r|]
  {
    PySlice(s, 0, k)
  }

  /** `sub` can be obtained from `s` by deleting elements (order kept). */
  predicate IsSubsequence<T(==)>(sub: seq<T>, s: seq<T>)
    decreases |s|
  {
    if sub == [] then true
    else if s == [] then false
    else if sub[0] == s[0] then IsSubsequence(sub[1..], s[1..])
    else IsSubsequence(sub, s[1..])
  }

  lemma {:induction false} PrefixIsSubsequence<T>(s: seq<T>, k: nat)
    requires k <= |s|
    ensures IsSubsequence(s[..k], s)
    decreases |s|
  {
    if k > 0 {
      assert s[..k][1..] == s[1..][..k - 1];
      PrefixIsSubsequence(s[1..], k - 1);
    }
  }

  lemma {:induction false} SubsequenceExtendRight<T>(sub: seq<T>, s: seq<T>, x: T)
    requires IsSubsequence(sub, s)
    ensures IsSubsequence(sub, s + [x])
    decreases |s|
  {
    if sub != [] && s != [] {
      assert (s + [x])[1..] == s[1..] + [x];
      if sub[0] == s[0] {
        SubsequenceExtendRight(sub[1..], s[1..], x);
      } else {
        SubsequenceExtendRight(sub, s[1..], x);
      }
    }
  }

  lemma {:induction false} SubsequenceExtendBoth<T>(sub: seq<T>, s: seq<T>, x: T)
    requires IsSubsequence(sub, s)
    ensures IsSubsequence(sub + [x], s + [x])
    decreases |s|
  {
    if s == [] {
      assert sub == [];
      assert ([] + [x])[1..] == [];
    } else {
      assert (s + [x])[1..] == s[1..] + [x];
      if sub == [] {
        SubsequenceExtendBoth(sub, s[1..], x);
        assert sub + [x] == [x];
      } else {
        assert (sub + [x])[1..] == sub[1..] + [x];
        if sub[0] == s[0] {
          SubsequenceExtendBoth(sub[1..], s[1..], x);
        } else {
          SubsequenceExtendBoth(sub, s[1..], x);
        }
      }
    }
  }

  lemma {:induction false} SubsequencePrefix<T>(sub: seq<T>, s: seq<T>, k: nat)
    requires IsSubsequence(sub, s) && k <= |sub|
    ensures IsSubsequence(sub[..k], s)
    decreases |s|
  {
    if k > 0 && s != [] {
      if sub[0] == s[0] {
        SubsequencePrefix(sub[1..], s[1..], k - 1);
        assert sub[..k][1..] == sub[1..][..k - 1];
      } else {
        SubsequencePrefix(sub, s[1..], k);
      }
    }
  }

  lemma {:induction false} SubsequenceMultiset<T>(sub: seq<T>, s: seq<T>)
    requires IsSubsequence(sub, s)
    ensures multiset(sub) <= multiset(s)
    ensures |sub| <= |s|
    decreases |s|
  {
    if sub == [] {
    } else if s == [] {
    } else if sub[0] == s[0] {
      SubsequenceMultiset(sub[1..], s[1..]);
      assert sub == [sub[0]] + sub[1..];
      assert s == [s[0]] + s[1..];
    } else {
      SubsequenceMultiset(sub, s[1..]);
      assert s == [s[0]] + s[1..];
    }
  }

  /** The elements that `f` accepts, transformed, in the order of `s`. */
  function FilterMap<T, U>(f: T -> Option<U>, s: seq<T>): (r: seq<U>)
    ensures |r| <= |s|
  {
    if s == [] then []
    else (match f(s[0]) case Some(u) => [u] case None => []) + FilterMap(f, s[1..])
  }

  /** The positions at or after `from` of the elements FilterMap keeps. */
  function KeptIndices<T, U>(f: T -> Option<U>, s: seq<T>, from: nat): (ix: seq<nat>)
    requires from <= |s|
    ensures |ix| == |FilterMap(f, s[from..])|
    ensures forall k :: 0 <= k < |ix| ==> from <= ix[k] < |s|
    decreases |s| - from
  {
    if from == |s| then []
    else
      var t := s[from..];
      assert t[0] == s[from] && t[1..] == s[from + 1..];
      if f(s[from]).Some? then [from] + KeptIndices(f, s, from + 1)
      else KeptIndices(f, s, from + 1)
  }

  /** KeptIndices lists, in increasing order, exactly the accepted positions,
      each paired with the element FilterMap keeps for it. */
  lemma {:induction false} KeptIndicesFacts<T, U>(f: T -> Option<U>, s: seq<T>, from: nat)
    requires from <= |s|
    ensures var ix := KeptIndices(f, s, from);
            && |ix| == |FilterMap(f, s[from..])|
            && (forall k :: 0 <= k < |ix| ==> f(s[ix[k]]) == Some(FilterMap(f, s[from..])[k]))
            && (forall k, l :: 0 <= k < l < |ix| ==> ix[k] < ix[l])
            && (forall j :: from <= j < |s| && f(s[j]).Some? ==> j in ix)
    decreases |s| - from
  {
    if from < |s| {
      KeptIndicesFacts(f, s, from + 1);
      var rest := KeptIndices(f, s, from + 1);
      var fm := FilterMap(f, s[from + 1..]);
      var t := s[from..];
      assert t[0] == s[from] && t[1..] == s[from + 1..];
      match f(s[from])
      case None =>
        assert FilterMap(f, t) == fm;
      case Some(u) =>
        assert FilterMap(f, t) == [u] + fm;
        KeptIndicesCons(f, s, from, rest, fm, u);
    }
  }

  lemma KeptIndicesCons<T, U>(f: T -> Option<U>, s: seq<T>, from: nat, rest: seq<nat>, fm: seq<U>, u: U)
    requires from < |s| && f(s[from]) == Some(u) && |rest| == |fm|
    requires forall k :: 0 <= k < |rest| ==> from < rest[k] < |s| && f(s[rest[k]]) == Some(fm[k])
    requires forall k, l :: 0 <= k < l < |rest| ==> rest[k] < rest[l]
    ensures var ix := [from] + rest;
            && (forall k :: 0 <= k < |ix| ==> f(s[ix[k]]) == Some(([u] + fm)[k]))
            && (forall k, l :: 0 <= k < l < |ix| ==> ix[k] < ix[l])
  {
    var ix := [from] + rest;
    forall k | 0 <= k < |ix| ensures f(s[ix[k]]) == Some(([u] + fm)[k]) {
      if k > 0 {
        assert ix[k] == rest[k - 1] && ([u] + fm)[k] == fm[k - 1];
      }
    }
    forall k, l | 0 <= k < l < |ix| ensures ix[k] < ix[l] {
      assert ix[l] == rest[l - 1];
      if k > 0 {
        assert ix[k] == rest[k - 1];
      }
    }
  }

  /** Every element FilterMap keeps is the image of some element of the input. */
  lemma FilterMapMember<T, U>(f: T -> Option<U>, s: seq<T>, u: U)
    requires u in FilterMap(f, s)
    ensures exists i :: 0 <= i < |s| && f(s[i]) == Some(u)
  {
    var ix := KeptIndices(f, s, 0);
    KeptIndicesFacts(f, s, 0);
    assert s[0..] == s;
    var k :| 0 <= k < |FilterMap(f, s)| && FilterMap(f, s)[k] == u;
    assert f(s[ix[k]]) == Some(u);
  }

  /** Every image of an accepted element is kept. */
  lemma FilterMapHas<T, U>(f: T -> Option<U>, s: seq<T>, i: nat)
    requires i < |s| && f(s[i]).Some?
    ensures f(s[i]).value in FilterMap(f, s)
  {
    var ix := KeptIndices(f, s, 0);
    KeptIndicesFacts(f, s, 0);
    assert s[0..] == s;
    var k :| 0 <= k < |ix| && ix[k] == i;
  }

  lemma {:induction false} FilterMapAppend<T, U>(f: T -> Option<U>, a: seq<T>, b: seq<T>)
    ensures FilterMap(f, a + b) == FilterMap(f, a) + FilterMap(f, b)
    decreases |a|
  {
    if a == [] {
      assert a + b == b;
    } else {
      assert (a + b)[1..] == a[1..] + b;
      FilterMapAppend(f, a[1..], b);
    }
  }

  /** One more element of `s` adds at most its image to FilterMap. */
  lemma FilterMapSnoc<T, U>(f: T -> Option<U>, s: seq<T>, k: nat)
    requires k < |s|
    ensures FilterMap(f, s[..k + 1]) == FilterMap(f, s[..k]) + (match f(s[k]) case Some(u) => [u] case None => [])
  {
    assert s[..k + 1] == s[..k] + [s[k]];
    FilterMapAppend(f, s[..k], [s[k]]);
  }

  /** FilterMap of one more element of a prefix. */
  lemma FilterMapExtend<T, U>(f: T -> Option<U>, s: seq<T>, k: nat)
    requires k < |s|
    ensures FilterMap(f, s[..k + 1]) == FilterMap(f, s[..k]) + FilterMap(f, [s[k]])
  {
    assert s[..k + 1] == s[..k] + [s[k]];
    FilterMapAppend(f, s[..k], [s[k]]);
  }

  /** FilterMap of a prefix is a prefix of FilterMap. */
  lemma FilterMapPrefix<T, U>(f: T -> Option<U>, s: seq<T>, k: nat)
    requires k <= |s|
    ensures |FilterMap(f, s[..k])| <= |FilterMap(f, s)|
    ensures FilterMap(f, s[..k]) == FilterMap(f, s)[..|FilterMap(f, s[..k])|]
  {
    assert s == s[..k] + s[k..];
    FilterMapAppend(f, s[..k], s[k..]);
  }

  /** Inserting the last element of a sequence into a permutation of the rest
      gives a permutation of the whole. */
  lemma MultisetSnocStep<T>(s: seq<T>, sorted: seq<T>, r: seq<T>)
    requires s != []
    requires multiset(sorted) == multiset(s[..|s| - 1])
    requires multiset(r) == multiset(sorted) + multiset{s[|s| - 1]}
    ensures multiset(r) == multiset(s)
  {
    assert s == s[..|s| - 1] + [s[|s| - 1]];
  }

  lemma MultisetWithout<T>(b: seq<T>, j: nat)
    requires j < |b|
    ensures multiset(b[..j] + b[j + 1..]) == multiset(b) - multiset{b[j]}
  {
    assert b == b[..j] + [b[j]] + b[j + 1..];
  }

  lemma {:induction false} FilterMapWithout<T, U>(f: T -> Option<U>, b: seq<T>, j: nat)
    requires j < |b|
    ensures multiset(FilterMap(f, b)) == multiset(FilterMap(f, [b[j]])) + multiset(FilterMap(f, b[..j] + b[j + 1..]))
  {
    var p, x, q := b[..j], [b[j]], b[j + 1..];
    assert b == p + (x + q);
    FilterMapAppend(f, p, x + q);
    FilterMapAppend(f, x, q);
    FilterMapAppend(f, p, q);
    var fp, fx, fq := FilterMap(f, p), FilterMap(f, x), FilterMap(f, q);
    assert FilterMap(f, b) == fp + (fx + fq);
    assert multiset(fp + (fx + fq)) == multiset(fp) + multiset(fx) + multiset(fq);
    assert multiset(fp + fq) == multiset(fp) + multiset(fq);
  }

  /** What FilterMap keeps depends only on the multiset of its input, not the order. */
  lemma {:induction false} FilterMapMultiset<T, U>(f: T -> Option<U>, a: seq<T>, b: seq<T>)
    requires multiset(a) == multiset(b)
    ensures multiset(FilterMap(f, a)) == multiset(FilterMap(f, b))
    decreases |a|
  {
    if a == [] {
      assert |multiset(b)| == 0;
    } else {
      var x, rest := a[0], a[1..];
      assert x in multiset(b);
      var j :| 0 <= j < |b| && b[j] == x;
      var b' := b[..j] + b[j + 1..];
      MultisetWithout(b, j);
      assert a == [x] + rest;
      assert multiset(a) == multiset{x} + multiset(rest);
      assert multiset(rest) == multiset(b');
      FilterMapMultiset(f, rest, b');
      FilterMapWithout(f, b, j);
      FilterMapAppend(f, [x], rest);
      var fx, fr := FilterMap(f, [x]), FilterMap(f, rest);
      assert FilterMap(f, a) == fx + fr;
      assert multiset(fx + fr) == multiset(fx) + multiset(fr);
    }
  }

  /** The concatenation of a sequence of sequences. */
  function Flatten<T>(xss: seq<seq<T>>): (r: seq<T>)
  {
    if xss == [] then [] else xss[0] + Flatten(xss[1..])
  }

  lemma {:induction false} FlattenAppend<T>(a: seq<seq<T>>, b: seq<seq<T>>)
    ensures Flatten(a + b) == Flatten(a) + Flatten(b)
    decreases |a|
  {
    if a == [] {
      assert a + b == b;
    } else {
      assert (a + b)[1..] == a[1..] + b;
      FlattenAppend(a[1..], b);
    }
  }

  /** The first k < max (counting from `from`) at which `tries` succeeds, with its value. */
  function FirstSuccess<T>(tries: nat -> Option<T>, from: nat, max: nat): (r: Option<(nat, T)>)
    ensures r.Some? ==> from <= r.value.0 < max && tries(r.value.0) == Some(r.value.1)
    ensures r.Some? ==> forall k :: from <= k < r.value.0 ==> tries(k).None?
    ensures r.None? ==> forall k :: from <= k < max ==> tries(k).None?
    decreases max - from
  {
    if from >= max then None
    else if tries(from).Some? then Some((from, tries(from).value))
    else FirstSuccess(tries, from + 1, max)
  }

  lemma FirstSuccessFound<T>(tries: nat -> Option<T>, j: nat, max: nat)
    requires j < max && tries(j).Some?
    requires forall k :: 0 <= k < j ==> tries(k).None?
    ensures FirstSuccess(tries, 0, max) == Some((j, tries(j).value))
  {
  }

  lemma FirstSuccessNone<T>(tries: nat -> Option<T>, max: nat)
    requires forall k :: 0 <= k < max ==> tries(k).None?
    ensures FirstSuccess(tries, 0, max).None?
  {
  }

  /** The value of the first success among attempts 0, ..., max-1. */
  function FirstValue<T>(tries: nat -> Option<T>, max: nat): (r: Option<T>)
    ensures r.Some? <==> exists k :: 0 <= k < max && tries(k).Some?
  {
    match FirstSuccess(tries, 0, max)
    case None => None
    case Some(hit) => Some(hit.1)
  }

  /** A loop of at most `max` attempts that stops at the first success; the
      shape of every bounded retry loop in the pipeline. */
  method Retry<T>(tries: nat -> Option<T>, max: nat) returns (r: Option<T>, attempts: nat)
    ensures r == FirstValue(tries, max)
    ensures attempts <= max
    ensures r.Some? <==> exists k :: 0 <= k < max && tries(k).Some?
    ensures r.Some? ==> attempts >= 1 && tries(attempts - 1) == r
                        && forall k :: 0 <= k < attempts - 1 ==> tries(k).None?
    ensures r.None? ==> attempts == max
  {
    attempts := 0;
    r := None;
    while attempts < max
      invariant attempts <= max
      invariant forall k :: 0 <= k < attempts ==> tries(k).None?
    {
      var outcome := tries(attempts);
      attempts := attempts + 1;
      if outcome.Some? {
        FirstSuccessFound(tries, attempts - 1, max);
        r := outcome;
        return;
      }
    }
    FirstSuccessNone(tries, max);
  }

  /** `random.sample`: how many elements are drawn from which population is the
      caller's; which ones is chance. */
  type Sampler<!T> = (seq<T>, nat) -> seq<T>

  /** The sampler draws exactly n elements from distinct positions of the population. */
  ghost predicate DrawsFrom<T(!new)>(sample: Sampler<T>)
  {
    forall s: seq<T>, n: nat :: n <= |s| ==> |sample(s, n)| == n && multiset(sample(s, n)) <= multiset(s)
  }
}
