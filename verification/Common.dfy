/** Vocabulary shared by every module: optional values, handler results, ASCII case folding
    and sums over finite maps. */
module Common {

  datatype Option<+T> = None | Some(value: T)

  /** What a handler gives back: a reply, or the exception it throws. */
  datatype Result<+T, +E> = Ok(value: T) | Err(error: E)

  datatype Decision = ALLOW | ESCALATE | BLOCK

  /** The two library parsers the handlers lean on, left uninterpreted: the checksummed form of an
      address (ethers `getAddress`) and `BigInt` of a decimal string. `None` is their exception. */
  datatype Env = Env(getAddress: string -> Option<string>, bigInt: string -> Option<int>)

  /** An address in the form `getAddress` gives it. */
  predicate IsChecksummed(env: Env, a: string) { env.getAddress(a) == Some(a) }

  /** Lower-cases one ASCII letter; every other character is its own lower case. */
  function LowerChar(c: char): char {
    if 'A' <= c <= 'Z' then (c as int + 32) as char else c
  }

  function ToLower(s: string): (r: string)
    ensures |r| == |s|
    ensures forall i :: 0 <= i < |s| ==> r[i] == LowerChar(s[i])
  {
    seq(|s|, i requires 0 <= i < |s| => LowerChar(s[i]))
  }

  /** The 26 capitals become small letters, and nothing else changes. */
  lemma CapitalsAreLowered(c: char)
    ensures LowerChar(c) != c <==> c in "ABCDEFGHIJKLMNOPQRSTUVWXYZ"
    ensures LowerChar(c) == c || LowerChar(c) as int - 'a' as int == c as int - 'A' as int
  {
    if 'A' <= c <= 'Z' {
      assert "ABCDEFGHIJKLMNOPQRSTUVWXYZ"[c as int - 'A' as int] == c;
    }
  }

  function Max(a: int, b: int): int { if a >= b then a else b }

  /** The UTC day a millisecond timestamp falls in. */
  const DAY_MS: nat := 86_400_000

  function DayOf(ms: nat): nat { ms / DAY_MS }

  // ---------------------------------------------------------------- sums over maps

  /** The sum of a map's values. A JavaScript `Map` is summed in insertion order;
      `SumRemove` shows that the order is immaterial. */
  ghost function Sum<K>(m: map<K, int>): int
    decreases |m|
  {
    if m == map[] then 0
    else
      var k :| k in m;
      m[k] + Sum(m - {k})
  }

  lemma {:induction false} SumRemove<K>(m: map<K, int>, k: K)
    requires k in m
    ensures Sum(m) == m[k] + Sum(m - {k})
    decreases |m|
  {
    var p :| p in m && Sum(m) == m[p] + Sum(m - {p});
    if p == k {
    } else {
      SumRemove(m - {p}, k);
      SumRemove(m - {k}, p);
      assert m - {p} - {k} == m - {k} - {p};
    }
  }

  lemma SumPut<K>(m: map<K, int>, k: K, v: int)
    ensures Sum(m[k := v]) == Sum(m) - (if k in m then m[k] else 0) + v
  {
    SumRemove(m[k := v], k);
    assert m[k := v] - {k} == m - {k};
    if k in m {
      SumRemove(m, k);
    } else {
      assert m - {k} == m;
    }
  }

  lemma PutBack<K, V>(m: map<K, V>, k: K)
    requires k in m
    ensures (m - {k})[k := m[k]] == m
  {
  }

  lemma PutBackUnion<K, V>(a: map<K, V>, b: map<K, V>, k: K)
    requires k in b
    ensures (a + (b - {k}))[k := b[k]] == a + b
  {
  }

  /** The sum over two separate parts. */
  lemma {:induction false} SumOfUnion<K>(a: map<K, int>, b: map<K, int>)
    requires a.Keys !! b.Keys
    ensures Sum(a + b) == Sum(a) + Sum(b)
    decreases |b|
  {
    assert b == map[] ==> Sum(b) == 0;
    hide Sum;
    if b == map[] {
      assert a + b == a;
    } else {
      var k :| k in b;
      var rest := b - {k};
      SumOfUnion(a, rest);
      SumPut(rest, k, b[k]);
      PutBack(b, k);
      SumPut(a + rest, k, b[k]);
      PutBackUnion(a, b, k);
    }
  }

  /** A map whose values are dominated, key by key, by those of a non-negative map sums to no more. */
  lemma {:induction false} SumMonotone<K>(m: map<K, int>, n: map<K, int>)
    requires forall k :: k in m ==> k in n && m[k] <= n[k]
    requires forall k :: k in n ==> 0 <= n[k]
    ensures Sum(m) <= Sum(n)
    decreases |n|
  {
    if n == map[] {
      assert m == map[];
    } else {
      var k :| k in n;
      SumRemove(n, k);
      if k in m {
        SumRemove(m, k);
      } else {
        assert m - {k} == m;
      }
      SumMonotone(m - {k}, n - {k});
    }
  }

  /** One step of summing a map key by key, `rest` being the keys still to come. */
  lemma SumWithout<K>(m: map<K, int>, rest: set<K>, k: K)
    requires k in m && k in rest
    ensures Sum(m - (rest - {k})) == Sum(m - rest) + m[k]
  {
    SumRemove(m - (rest - {k}), k);
    assert m - (rest - {k}) - {k} == m - rest;
  }

  lemma SumNonNegative<K>(m: map<K, int>)
    requires forall k :: k in m ==> 0 <= m[k]
    ensures 0 <= Sum(m)
  {
    SumMonotone(map[], m);
  }
}
