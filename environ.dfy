/**
 * The process environment as the Go runtime sees it: a list of `KEY=value`
 * entries (`os.Environ`), looked up by key (`os.LookupEnv`), and the decimal
 * text `fmt.Sprintf("%d", pid)` writes for a process id.
 */
module Environ {
  import opened Base

  /** The byte '='. */
  const Eq: byte := 0x3D

  /**
   * The key of an environment entry: everything before its first '='.
   * Entries without '=' have no key and are invisible to lookups.
   */
  function KeyOf(entry: Bytes): (k: Option<Bytes>)
    ensures k.Some? ==> |k.value| < |entry| && entry[..|k.value|] == k.value
                        && entry[|k.value|] == Eq && Eq !in k.value
    ensures k.None? ==> Eq !in entry
  {
    if entry == [] then None
    else if entry[0] == Eq then Some([])
    else match KeyOf(entry[1..])
      case None => None
      case Some(rest) => Some([entry[0]] + rest)
  }

  /** `os.LookupEnv(key)` reports presence: some entry carries exactly this key. */
  predicate LookupEnv(env: seq<Bytes>, key: Bytes)
  {
    exists i :: 0 <= i < |env| && KeyOf(env[i]) == Some(key)
  }

  predicate IsDigit(b: byte)
  {
    0x30 <= b <= 0x39
  }

  predicate AllDigits(s: Bytes)
  {
    forall i :: 0 <= i < |s| ==> IsDigit(s[i])
  }

  /** The decimal text `%d` produces for a non-negative number, without leading zeros. */
  function FormatDecimal(n: nat): (r: Bytes)
    ensures |r| > 0 && AllDigits(r)
    ensures |r| > 1 ==> r[0] != 0x30
    decreases n
  {
    if n < 10 then [(0x30 + n) as byte]
    else FormatDecimal(n / 10) + [(0x30 + n % 10) as byte]
  }

  /** Reading decimal digits back as a number. */
  function ParseDecimal(s: Bytes): nat
    requires AllDigits(s)
  {
    if s == [] then 0
    else ParseDecimal(s[..|s| - 1]) * 10 + (s[|s| - 1] as int - 0x30)
  }

  /** The text written for a pid reads back as that pid. */
  lemma {:induction false} ParseFormatDecimal(n: nat)
    ensures ParseDecimal(FormatDecimal(n)) == n
    decreases n
  {
    if n >= 10 {
      var s := FormatDecimal(n);
      assert s[..|s| - 1] == FormatDecimal(n / 10);
      ParseFormatDecimal(n / 10);
    }
  }

  /** An entry `key=value` whose key has no '=' in it is keyed by exactly that key. */
  lemma {:induction false} KeyOfEntry(key: Bytes, value: Bytes)
    requires Eq !in key
    ensures KeyOf(key + [Eq] + value) == Some(key)
  {
    var e := key + [Eq] + value;
    if key != [] {
      assert e[1..] == key[1..] + [Eq] + value;
      KeyOfEntry(key[1..], value);
      assert [key[0]] + key[1..] == key;
    }
  }
}
