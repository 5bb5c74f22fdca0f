/** Option type used where the source either produces a value or leaves a
    caller's buffer untouched. */
module Wrappers {

  datatype Option<+T> = None | Some(value: T) {

    /** Returns the value held in Some, or the default when None. */
    function GetOr(default: T): T {
      match this
      case Some(v) => v
      case None => default
    }
  }
}

/** Fixed-width integers of the C++ source, wrap-around casts, C-string copy,
    decimal rendering and association-table lookup. */
module Prims {
  import opened Wrappers

  type uint8 = x: int | 0 <= x < 0x100
  type uint16 = x: int | 0 <= x < 0x1_0000
  type uint32 = x: int | 0 <= x < 0x1_0000_0000
  type int16 = x: int | -0x8000 <= x < 0x8000
  type int32 = x: int | -0x8000_0000 <= x < 0x8000_0000

  /** Assignment or cast of an integer to `unsigned short`: keeps the low 16
      bits. */
  function Wrap16(x: int): (r: uint16)
    ensures 0 <= x < 0x1_0000 ==> r == x
    ensures (r - x) % 0x1_0000 == 0
  {
    x % 0x1_0000
  }

  /** Cast of an integer to `unsigned char`: keeps the low 8 bits. */
  function Low8(x: int): (r: uint8)
    ensures 0 <= x < 0x100 ==> r == x
    ensures (r - x) % 0x100 == 0
  {
    x % 0x100
  }

  /** `strncpy(dst, src, n)`: exactly n characters land in the buffer; the
      source's characters first, then NUL padding, and no terminator when the
      source is at least n characters long. */
  function StrNCpy(src: string, n: nat): (buf: string)
    ensures |buf| == n
    ensures forall k :: 0 <= k < n && k < |src| ==> buf[k] == src[k]
    ensures forall k :: |src| <= k < n ==> buf[k] == '\0'
  {
    if n <= |src| then src[..n] else src + seq(n - |src|, _ => '\0')
  }

  predicate IsDigit(c: char) {
    '0' <= c <= '9'
  }

  function DigitChar(d: nat): (c: char)
    requires d < 10
    ensures IsDigit(c) && c as int - '0' as int == d
  {
    "0123456789"[d]
  }

  /** Decimal rendering of a natural number, most significant digit first and
      without leading zeros (what `itoa(n, buf, 10)` and `%d` produce). */
  function NatToDecimal(n: nat): (s: string)
    ensures 1 <= |s|
    ensures forall k :: 0 <= k < |s| ==> IsDigit(s[k])
    ensures n < 10 <==> |s| == 1
    ensures |s| > 1 ==> s[0] != '0'
    decreases n
  {
    if n < 10 then [DigitChar(n)] else NatToDecimal(n / 10) + [DigitChar(n % 10)]
  }

  /** The number a string of decimal digits denotes. */
  function DecimalValue(s: string): nat
    requires forall k :: 0 <= k < |s| ==> IsDigit(s[k])
  {
    if |s| == 0 then 0
    else
      assert IsDigit(s[|s| - 1]);
      DecimalValue(s[..|s| - 1]) * 10 + (s[|s| - 1] as int - '0' as int)
  }

  /** Reading back a rendered number gives the number. */
  lemma {:induction false} DecimalRoundTrip(n: nat)
    ensures DecimalValue(NatToDecimal(n)) == n
    decreases n
  {
    if n >= 10 {
      DecimalRoundTrip(n / 10);
      var s := NatToDecimal(n);
      assert s[..|s| - 1] == NatToDecimal(n / 10);
    }
  }

  function Pow10(k: nat): (p: nat)
    ensures p >= 1
  {
    if k == 0 then 1 else 10 * Pow10(k - 1)
  }

  /** A number below 10^k takes at most k digits. */
  lemma {:induction false} DecimalLength(n: nat, k: nat)
    requires 1 <= k
    requires n < Pow10(k)
    ensures |NatToDecimal(n)| <= k
    decreases k
  {
    if n >= 10 {
      assert k >= 2;
      DecimalLength(n / 10, k - 1);
    }
  }

  /** Decimal rendering of a signed value (`%d`, `%hi`). */
  function IntToDecimal(x: int): (s: string)
    ensures x >= 0 ==> s == NatToDecimal(x)
    ensures x < 0 ==> s == "-" + NatToDecimal(-x)
  {
    if x < 0 then "-" + NatToDecimal(-x) else NatToDecimal(x)
  }

  /** First entry whose key matches, as a C `switch` over distinct labels. */
  function Lookup<K(==), V>(table: seq<(K, V)>, key: K): (r: Option<V>)
    ensures r.None? <==> forall k :: 0 <= k < |table| ==> table[k].0 != key
    ensures r.Some? ==> exists k :: 0 <= k < |table| && table[k] == (key, r.value)
  {
    if |table| == 0 then None
    else if table[0].0 == key then Some(table[0].1)
    else
      var r := Lookup(table[1..], key);
      assert forall k :: 1 <= k < |table| ==> table[k] == table[1..][k - 1];
      r
  }

  predicate DistinctKeys<K(==), V>(table: seq<(K, V)>) {
    forall i, j :: 0 <= i < j < |table| ==> table[i].0 != table[j].0
  }

  /** With distinct keys every entry is found under its own key. */
  lemma {:induction false} LookupFindsEntry<K, V>(table: seq<(K, V)>, k: nat)
    requires DistinctKeys(table)
    requires k < |table|
    ensures Lookup(table, table[k].0) == Some(table[k].1)
  {
    var r := Lookup(table, table[k].0);
    assert r.Some?;
    var j :| 0 <= j < |table| && table[j] == (table[k].0, r.value);
    if j != k {
      if j < k { assert table[j].0 != table[k].0; } else { assert table[k].0 != table[j].0; }
    }
  }
}
