/** Decimal numerals, as printed by "%d" and read by strconv.ParseUint(_, 10, 32), and the
    device identifiers "<node>_<index>" built from them. */
module Decimal {
  import opened Wrappers

  function DigitChar(d: nat): char
    requires d < 10
  {
    '0' + d as char
  }

  predicate AllDigits(s: string) {
    forall i :: 0 <= i < |s| ==> '0' <= s[i] <= '9'
  }

  /** The numeral "%d" prints for a non-negative integer. */
  function Print(n: nat): string {
    if n < 10 then [DigitChar(n)] else Print(n / 10) + [DigitChar(n % 10)]
  }

  /** The number a string of decimal digits stands for. */
  function Value(s: string): nat
    requires AllDigits(s)
  {
    if |s| == 0 then 0 else Value(s[..|s| - 1]) * 10 + (s[|s| - 1] - '0') as nat
  }

  /** strconv.ParseUint(s, 10, 32): None stands for its error. */
  function ParseUint32(s: string): Option<nat> {
    if s == "" || !AllDigits(s) || Value(s) >= 0x1_0000_0000 then None else Some(Value(s))
  }

  lemma {:induction false} PrintIsNumeral(n: nat)
    ensures |Print(n)| > 0 && AllDigits(Print(n)) && Value(Print(n)) == n
    ensures if n == 0 then Print(n) == "0" else Print(n)[0] != '0'
  {
    if n >= 10 {
      PrintIsNumeral(n / 10);
      assert Print(n)[..|Print(n)| - 1] == Print(n / 10);
    }
  }

  function Power10(k: nat): nat {
    if k == 0 then 1 else 10 * Power10(k - 1)
  }

  lemma ShiftDigit(a: nat, p: nat, b: nat, d: nat)
    ensures (a * p + b) * 10 + d == a * (10 * p) + (b * 10 + d)
  {
  }

  /** Digits count by their place, in base ten. */
  lemma {:induction false} PlaceValue(s: string, t: string)
    requires AllDigits(s) && AllDigits(t)
    ensures AllDigits(s + t) && Value(s + t) == Value(s) * Power10(|t|) + Value(t)
  {
    if |t| == 0 {
      assert s + t == s;
    } else {
      var last := |t| - 1;
      assert (s + t)[..|s + t| - 1] == s + t[..last];
      PlaceValue(s, t[..last]);
      ShiftDigit(Value(s), Power10(last), Value(t[..last]), (t[last] - '0') as nat);
    }
  }

  /** Reading back a printed number gives that number, as long as it fits the 32 bits asked for. */
  lemma ParsePrint(n: nat)
    requires n < 0x1_0000_0000
    ensures ParseUint32(Print(n)) == Some(n)
  {
    PrintIsNumeral(n);
  }

  /** fmt.Sprintf("%s_%d", node, k): the identifier of the k-th device found on a node. */
  function DeviceId(node: string, k: nat): string {
    node + "_" + Print(k)
  }

  /** Everything before the last underscore: the node a device identifier belongs to. */
  function NodeOf(id: string): string {
    if |id| == 0 then ""
    else if id[|id| - 1] == '_' then id[..|id| - 1]
    else NodeOf(id[..|id| - 1])
  }

  lemma {:induction false} NodeOfNumeral(prefix: string, digits: string)
    requires AllDigits(digits)
    ensures NodeOf(prefix + "_" + digits) == prefix
  {
    var id := prefix + "_" + digits;
    if |digits| == 0 {
      assert id[..|id| - 1] == prefix;
    } else {
      NodeOfNumeral(prefix, digits[..|digits| - 1]);
      assert id[..|id| - 1] == prefix + "_" + digits[..|digits| - 1];
      assert id[|id| - 1] == digits[|digits| - 1];
    }
  }

  /** A device identifier names its node, whatever characters the node id holds. */
  lemma NodeOfDeviceId(node: string, k: nat)
    ensures NodeOf(DeviceId(node, k)) == node
  {
    PrintIsNumeral(k);
    NodeOfNumeral(node, Print(k));
  }

  /** Identifiers are unique over all nodes and indices. */
  lemma DeviceIdInjective(node: string, k: nat, node': string, k': nat)
    requires DeviceId(node, k) == DeviceId(node', k')
    ensures node == node' && k == k'
  {
    NodeOfDeviceId(node, k);
    NodeOfDeviceId(node', k');
    PrintIsNumeral(k);
    PrintIsNumeral(k');
    assert DeviceId(node, k)[|node| + 1..] == Print(k);
    assert DeviceId(node', k')[|node'| + 1..] == Print(k');
  }
}
