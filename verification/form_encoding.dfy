/**
  Flat argument lists and their `application/x-www-form-urlencoded` form, as
  PHP's `array_merge` and `http_build_query($args, '', '&')` treat a
  string-keyed array of strings.  A PHP array keeps insertion order and has no
  repeated key, so arguments are a sequence of pairs with distinct keys.
  Percent-encoding of one key or value is an opaque function `enc`.
 */
module FormEncoding {
  import opened Wrappers
  import opened Strings

  type Params = seq<(string, string)>

  predicate DistinctKeys(p: Params)
  {
    forall i, j :: 0 <= i < j < |p| ==> p[i].0 != p[j].0
  }

  /** The value stored under `k`, if any. */
  function Lookup(p: Params, k: string): Option<string>
  {
    if |p| == 0 then None
    else if p[0].0 == k then Some(p[0].1)
    else Lookup(p[1..], k)
  }

  lemma {:induction false} LookupAbsent(p: Params, k: string)
    requires forall i :: 0 <= i < |p| ==> p[i].0 != k
    ensures Lookup(p, k) == None
  {
    if |p| > 0 {
      LookupAbsent(p[1..], k);
    }
  }

  /**
    One step of `array_merge` for a string key: overwrite the value in place
    when the key is present, append the pair otherwise.
   */
  function Put(p: Params, k: string, v: string): (r: Params)
    ensures |p| <= |r| <= |p| + 1
    ensures forall i :: 0 <= i < |p| ==> r[i].0 == p[i].0
    ensures |r| == |p| + 1 ==> r[|p|] == (k, v)
    ensures Lookup(r, k) == Some(v)
    ensures forall k' :: k' != k ==> Lookup(r, k') == Lookup(p, k')
  {
    if |p| == 0 then [(k, v)]
    else if p[0].0 == k then [(k, v)] + p[1..]
    else [p[0]] + Put(p[1..], k, v)
  }

  /** A put never repeats a key: it appends only a key that was absent. */
  lemma {:induction false} PutDistinct(p: Params, k: string, v: string)
    requires DistinctKeys(p)
    ensures DistinctKeys(Put(p, k, v))
  {
    var r := Put(p, k, v);
    if |r| == |p| + 1 {
      forall i | 0 <= i < |p|
        ensures p[i].0 != k
      {
        if p[i].0 == k {
          PutKeepsLength(p, i, k, v);
        }
      }
    }
  }

  /** Putting a key already present does not grow the list. */
  lemma {:induction false} PutKeepsLength(p: Params, i: nat, k: string, v: string)
    requires i < |p| && p[i].0 == k
    ensures |Put(p, k, v)| == |p|
  {
    if p[0].0 != k {
      PutKeepsLength(p[1..], i - 1, k, v);
    }
  }

  /**
    `array_merge(base, over)`: every pair of `over` in order, later keys
    overriding earlier ones, new keys appended after those of `base`.
   */
  function Merge(base: Params, over: Params): Params
    decreases |over|
  {
    if |over| == 0 then base
    else Merge(Put(base, over[0].0, over[0].1), over[1..])
  }

  /**
    The merged array holds the caller's value for every key the caller gave,
    and the default value for every other key.
   */
  lemma {:induction false} MergeLookup(base: Params, over: Params, k: string)
    requires DistinctKeys(over)
    ensures Lookup(Merge(base, over), k)
         == if Lookup(over, k).Some? then Lookup(over, k) else Lookup(base, k)
    decreases |over|
  {
    if |over| > 0 {
      var base' := Put(base, over[0].0, over[0].1);
      MergeLookup(base', over[1..], k);
      if k == over[0].0 {
        LookupAbsent(over[1..], k);
      }
    }
  }

  /**
    The keys of `base` keep their positions at the front of the merge, the
    merge adds at most the caller's pairs, and it never repeats a key.
   */
  lemma {:induction false} MergeShape(base: Params, over: Params)
    ensures |base| <= |Merge(base, over)| <= |base| + |over|
    ensures forall i :: 0 <= i < |base| ==> Merge(base, over)[i].0 == base[i].0
    ensures DistinctKeys(base) ==> DistinctKeys(Merge(base, over))
    decreases |over|
  {
    if |over| > 0 {
      if DistinctKeys(base) {
        PutDistinct(base, over[0].0, over[0].1);
      }
      MergeShape(Put(base, over[0].0, over[0].1), over[1..]);
    }
  }

  function EncodePair(kv: (string, string), enc: string -> string): string
  {
    enc(kv.0) + "=" + enc(kv.1)
  }

  /** `http_build_query(p, '', '&')`: encoded pairs in insertion order. */
  function Encode(p: Params, enc: string -> string): string
  {
    Join(seq(|p|, i requires 0 <= i < |p| => EncodePair(p[i], enc)), '&')
  }

  /** Splits one `k=v` piece at its first `=`. */
  function DecodePair(s: string, dec: string -> string): (string, string)
  {
    if '=' in s then
      var i := IndexOf(s, '=');
      (dec(s[..i]), dec(s[i + 1..]))
    else (dec(s), "")
  }

  /** Reads a form-encoded string back into its pairs (an independent inverse of `Encode`). */
  function Decode(q: string, dec: string -> string): Params
  {
    if q == "" then []
    else
      var pieces := Split(q, '&');
      seq(|pieces|, i requires 0 <= i < |pieces| => DecodePair(pieces[i], dec))
  }

  /** A percent-encoder: its output never holds the two delimiters, and `dec` inverts it. */
  ghost predicate Inverts(enc: string -> string, dec: string -> string)
  {
    forall x :: '&' !in enc(x) && '=' !in enc(x) && dec(enc(x)) == x
  }

  /**
    The encoded query is empty (or PHP-`empty`) exactly when there are no
    arguments: every pair contributes at least its `=`.
   */
  lemma EncodeEmpty(p: Params, enc: string -> string)
    ensures IsEmpty(Encode(p, enc)) <==> |p| == 0
  {
    if |p| > 0 {
      var parts := seq(|p|, i requires 0 <= i < |p| => EncodePair(p[i], enc));
      JoinStartsWithFirst(parts, '&');
      var first := parts[0];
      assert first[|enc(p[0].0)|] == '=';
      assert Encode(p, enc)[|enc(p[0].0)|] == '=';
    }
  }

  /** Decoding an encoded argument list gives back the same pairs in the same order. */
  lemma DecodeEncode(p: Params, enc: string -> string, dec: string -> string)
    requires Inverts(enc, dec)
    ensures Decode(Encode(p, enc), dec) == p
  {
    EncodeEmpty(p, enc);
    if |p| > 0 {
      var parts := seq(|p|, i requires 0 <= i < |p| => EncodePair(p[i], enc));
      forall k | 0 <= k < |parts|
        ensures '&' !in parts[k]
      {
        assert parts[k] == enc(p[k].0) + "=" + enc(p[k].1);
      }
      SplitJoin(parts, '&');
      var q := Encode(p, enc);
      assert Split(q, '&') == parts;
      forall k | 0 <= k < |p|
        ensures DecodePair(parts[k], dec) == p[k]
      {
        var a := enc(p[k].0);
        var b := enc(p[k].1);
        assert parts[k] == a + ['='] + b;
        IndexOfAfterPrefix(a, '=', b);
        assert parts[k][..|a|] == a;
        assert parts[k][|a| + 1..] == b;
      }
    }
  }
}
