/**
 * JSON values as the handler sees them after `json` decoding. An object is an
 * ordered list of fields (Python dicts keep insertion order); `Get` is lookup
 * and `RemoveKey` deletes a key, doing nothing when it is missing.
 */
module Json {
  import opened Wrappers

  datatype Value =
    | Null
    | Bool(b: bool)
    | Num(n: real)
    | Str(s: string)
    | Arr(elems: seq<Value>)
    | Obj(fields: seq<Field>)

  datatype Field = Field(key: string, value: Value)

  /** A JSON object: its fields in insertion order. */
  type Doc = seq<Field>

  /** Keys of a Python dict are distinct. */
  predicate KeysDistinct(d: Doc) {
    forall i, j :: 0 <= i < j < |d| ==> d[i].key != d[j].key
  }

  function Keys(d: Doc): set<string> {
    if d == [] then {} else {d[0].key} + Keys(d[1..])
  }

  /** The value stored under `k`, if any. */
  function Get(d: Doc, k: string): (r: Option<Value>)
    ensures r.None? <==> k !in Keys(d)
    ensures r.Some? ==> Field(k, r.value) in d
  {
    if d == [] then None
    else if d[0].key == k then Some(d[0].value)
    else Get(d[1..], k)
  }

  /** In a dict, looking up the key of a field gives that field's value. */
  lemma {:induction false} GetAt(d: Doc, i: nat)
    requires KeysDistinct(d) && i < |d|
    ensures Get(d, d[i].key) == Some(d[i].value)
  {
    if i > 0 {
      assert KeysDistinct(d[1..]);
      GetAt(d[1..], i - 1);
    }
  }

  /** `s` is `d` with some fields left out, the rest in their original order. */
  predicate Subsequence(s: Doc, d: Doc)
    decreases |d|
  {
    if s == [] then true
    else if d == [] then false
    else if s[0] == d[0] then Subsequence(s[1..], d[1..])
    else Subsequence(s, d[1..])
  }

  /** `d` without its field under `k`; a missing key is not an error. */
  function RemoveKey(d: Doc, k: string): Doc {
    if d == [] then []
    else if d[0].key == k then RemoveKey(d[1..], k)
    else [d[0]] + RemoveKey(d[1..], k)
  }

  /** Popping `k` removes `k` from the keys and no other key. */
  lemma {:induction false} RemoveKeyKeys(d: Doc, k: string)
    ensures Keys(RemoveKey(d, k)) == Keys(d) - {k}
  {
    if d != [] {
      RemoveKeyKeys(d[1..], k);
      if d[0].key != k {
        assert ([d[0]] + RemoveKey(d[1..], k))[1..] == RemoveKey(d[1..], k);
      }
    }
  }

  /** Popping `k` keeps the value under every other key. */
  lemma {:induction false} RemoveKeyGet(d: Doc, k: string, k': string)
    requires k' != k
    ensures Get(RemoveKey(d, k), k') == Get(d, k')
  {
    if d != [] {
      RemoveKeyGet(d[1..], k, k');
      if d[0].key != k {
        assert ([d[0]] + RemoveKey(d[1..], k))[1..] == RemoveKey(d[1..], k);
      }
    }
  }

  /** Popping a missing key is not an error and changes nothing. */
  lemma {:induction false} RemoveKeyAbsent(d: Doc, k: string)
    requires k !in Keys(d)
    ensures RemoveKey(d, k) == d
  {
    if d != [] {
      RemoveKeyAbsent(d[1..], k);
      assert [d[0]] + d[1..] == d;
    }
  }

  /** The fields left after popping `k` are in their original order. */
  lemma {:induction false} RemoveKeyOrder(d: Doc, k: string)
    ensures Subsequence(RemoveKey(d, k), d)
  {
    if d != [] {
      RemoveKeyOrder(d[1..], k);
      var rest := RemoveKey(d[1..], k);
      if d[0].key != k {
        assert ([d[0]] + rest)[1..] == rest;
      } else {
        SubsequenceTail(rest, d);
      }
    }
  }

  /** Popping from a dict gives a dict. */
  lemma {:induction false} RemoveKeyDistinct(d: Doc, k: string)
    requires KeysDistinct(d)
    ensures KeysDistinct(RemoveKey(d, k))
  {
    if d != [] {
      assert KeysDistinct(d[1..]);
      RemoveKeyDistinct(d[1..], k);
      var rest := RemoveKey(d[1..], k);
      if d[0].key != k {
        assert d[0].key !in Keys(d[1..]) by { KeysIndexed(d[1..], d[0].key); }
        RemoveKeyKeys(d[1..], k);
        KeysIndexed(rest, d[0].key);
        var r := [d[0]] + rest;
        forall i, j | 0 <= i < j < |r| ensures r[i].key != r[j].key {
          if i == 0 {
            assert r[j] == rest[j - 1];
          } else {
            assert r[i] == rest[i - 1] && r[j] == rest[j - 1];
          }
        }
      }
    }
  }

  /** A key is in `Keys(d)` exactly when some field of `d` carries it. */
  lemma {:induction false} KeysIndexed(d: Doc, k: string)
    ensures k in Keys(d) <==> exists i :: 0 <= i < |d| && d[i].key == k
  {
    if d != [] {
      KeysIndexed(d[1..], k);
      if k in Keys(d[1..]) {
        var i :| 0 <= i < |d[1..]| && d[1..][i].key == k;
        assert d[i + 1].key == k;
      }
      if exists i :: 0 <= i < |d| && d[i].key == k {
        var i :| 0 <= i < |d| && d[i].key == k;
        if i > 0 { assert d[1..][i - 1].key == k; }
      }
    }
  }

  /** On a dict, popping a present key removes exactly one field. */
  lemma {:induction false} RemoveKeyPresent(d: Doc, k: string)
    requires KeysDistinct(d)
    requires k in Keys(d)
    ensures |RemoveKey(d, k)| == |d| - 1
  {
    assert KeysDistinct(d[1..]);
    if d[0].key == k {
      KeysIndexed(d[1..], k);
      RemoveKeyAbsent(d[1..], k);
    } else {
      RemoveKeyPresent(d[1..], k);
    }
  }

  /** Being a subsequence is transitive, so several pops in a row still keep the order. */
  lemma {:induction false} SubsequenceTrans(a: Doc, b: Doc, c: Doc)
    requires Subsequence(a, b) && Subsequence(b, c)
    ensures Subsequence(a, c)
    decreases |c|
  {
    if a == [] {
    } else if b == [] {
    } else if c == [] {
    } else if b[0] == c[0] {
      if a[0] == b[0] {
        SubsequenceTrans(a[1..], b[1..], c[1..]);
      } else {
        SubsequenceTrans(a, b[1..], c[1..]);
      }
    } else {
      SubsequenceTrans(a, b, c[1..]);
      if a[0] == c[0] {
        SubsequenceDropHead(a, c[1..]);
      }
    }
  }

  lemma {:induction false} SubsequenceDropHead(a: Doc, x: Doc)
    requires a != [] && Subsequence(a, x)
    ensures Subsequence(a[1..], x)
    decreases |x|, 1
  {
    if a[0] != x[0] {
      SubsequenceDropHead(a, x[1..]);
    }
    SubsequenceTail(a[1..], x);
  }

  /** A subsequence of the tail is a subsequence of the whole. */
  lemma {:induction false} SubsequenceTail(s: Doc, x: Doc)
    requires x != [] && Subsequence(s, x[1..])
    ensures Subsequence(s, x)
    decreases |x|, 0
  {
    if s != [] && s[0] == x[0] {
      SubsequenceDropHead(s, x[1..]);
    }
  }
}
