/** Shared vocabulary of the caching layer: optional values, bytes,
    transport responses, and the concatenation of byte chunks. */
module Common {

  datatype Option<+T> = None | Some(value: T)

  /** One octet, as carried by Foundation's Data. */
  newtype byte = x: int | 0 <= x < 256

  /** The part of a URLResponse the caching layer looks at. */
  datatype Response = Response(mimeType: Option<string>)

  /** Foundation's NSURLErrorCancelled. */
  const UrlErrorCancelled: int := -999

  /** The chunks laid end to end, first chunk first. */
  function Concat<T>(chunks: seq<seq<T>>): (r: seq<T>)
    decreases |chunks|
  {
    if chunks == [] then [] else chunks[0] + Concat(chunks[1..])
  }

  lemma {:induction false} ConcatAppend<T>(a: seq<seq<T>>, b: seq<seq<T>>)
    ensures Concat(a + b) == Concat(a) + Concat(b)
    decreases |a|
  {
    if a == [] {
      assert a + b == b;
    } else {
      assert (a + b)[1..] == a[1..] + b;
      ConcatAppend(a[1..], b);
    }
  }

  /** Prefix extension is transitive, and the added part splits accordingly. */
  lemma PrefixChain<T>(a: seq<T>, b: seq<T>, c: seq<T>)
    requires |a| <= |b| <= |c| && b[..|a|] == a && c[..|b|] == b
    ensures c[..|a|] == a
    ensures c[|a|..] == b[|a|..] + c[|b|..]
  {
    assert c[..|a|] == c[..|b|][..|a|];
    assert c == c[..|b|] + c[|b|..];
  }

  /** Taking one more element of a sequence. */
  lemma TakeOneMore<T>(s: seq<T>, j: nat)
    requires j < |s|
    ensures s[..j + 1] == s[..j] + [s[j]]
    ensures s[j..][0] == s[j] && s[j..][1..] == s[j + 1..]
  {
  }

  lemma AppendRegroup<T>(a: seq<T>, x: T, b: seq<T>)
    ensures a + ([x] + b) == (a + [x]) + b
  {
  }

  lemma AppendAssoc<T>(a: seq<T>, b: seq<T>, c: seq<T>)
    ensures a + (b + c) == (a + b) + c
  {
  }

  /** The last element of a concatenation, and what precedes it. */
  lemma DropLastAppend<T>(a: seq<T>, b: seq<T>)
    requires b != []
    ensures (a + b)[..|a + b| - 1] == a + b[..|b| - 1]
    ensures (a + b)[|a + b| - 1] == b[|b| - 1]
  {
  }

  lemma PeelPrefix<T>(p: seq<T>, x: seq<T>, y: seq<T>)
    requires p + x == p + y
    ensures x == y
  {
    assert x == (p + x)[|p|..];
    assert y == (p + y)[|p|..];
  }

  lemma SplitAppend<T>(a: seq<T>, b: seq<T>)
    ensures (a + b)[..|a|] == a && (a + b)[|a|..] == b
  {
  }

  /** A non-empty prefix is the head followed by a prefix of the tail. */
  lemma TakeCons<T>(s: seq<T>, k: nat)
    requires 1 <= k <= |s|
    ensures s[..k] == [s[0]] + s[1..][..k - 1]
    ensures s[1..][k - 1..] == s[k..]
  {
  }

  lemma TwoElements<T>(s: set<T>, a: T, b: T)
    requires a in s && b in s && a != b
    ensures |s| >= 2
  {
    var rest := s - {a, b};
    assert s == {a, b} + rest;
  }

  /** A map with at most one key and the key `k` has no other key. */
  lemma SingleKey<K, V>(m: map<K, V>, k: K)
    requires |m| <= 1 && k in m
    ensures m.Keys == {k}
  {
    forall k' | k' in m
      ensures k' == k
    {
      if k' != k {
        TwoElements(m.Keys, k, k');
        assert false;
      }
    }
  }
}
