/** Connection names: a fixed prefix and a decimal counter, printed into a 64-byte buffer. */
module Naming {
  import opened Kernel

  /** snprintf into a buffer of this size keeps one character less. */
  const NAME_BUFFER: nat := 64

  const DIGITS: string := "0123456789"

  function Decimal(n: nat): (s: string)
    ensures s != []
  {
    if n < 10 then [DIGITS[n]] else Decimal(n / 10) + [DIGITS[n % 10]]
  }

  function ConnName(name: string, ipPort: string, id: nat): string {
    var suffix := "-" + ipPort + "#" + Decimal(id);
    name + suffix[..Min(NAME_BUFFER - 1, |suffix|)]
  }

  lemma DigitsDiffer(a: nat, b: nat)
    requires a < 10 && b < 10 && DIGITS[a] == DIGITS[b]
    ensures a == b
  {
  }

  lemma {:induction false} DecimalInjective(a: nat, b: nat)
    requires Decimal(a) == Decimal(b)
    ensures a == b
  {
    var da, db := Decimal(a), Decimal(b);
    assert da[|da| - 1] == DIGITS[a % 10] && db[|db| - 1] == DIGITS[b % 10];
    DigitsDiffer(a % 10, b % 10);
    if 10 <= a && 10 <= b {
      assert da[..|da| - 1] == Decimal(a / 10) && db[..|db| - 1] == Decimal(b / 10);
      DecimalInjective(a / 10, b / 10);
    }
  }

  function PowerOfTen(digits: nat): nat {
    if digits == 0 then 1 else 10 * PowerOfTen(digits - 1)
  }

  lemma {:induction false} DecimalLength(n: nat, digits: nat)
    requires 0 < digits && n < PowerOfTen(digits)
    ensures |Decimal(n)| <= digits
  {
    if 10 <= n {
      assert PowerOfTen(1) == 10;
      DecimalLength(n / 10, digits - 1);
    }
  }

  lemma IdHasTenDigits(id: nat)
    requires id <= INT_MAX
    ensures |Decimal(id)| <= 10
  {
    assert PowerOfTen(10) == 10_000_000_000 by {
      assert PowerOfTen(5) == 100_000;
    }
    DecimalLength(id, 10);
  }

  const LONGEST_IP_PORT: nat := 51

  /** Different counters give different names. */
  lemma NamesDiffer(name: string, ipPort: string, a: nat, b: nat)
    requires |ipPort| <= LONGEST_IP_PORT && a <= INT_MAX && b <= INT_MAX && a != b
    ensures ConnName(name, ipPort, a) != ConnName(name, ipPort, b)
  {
    IdHasTenDigits(a);
    IdHasTenDigits(b);
    var pre := "-" + ipPort + "#";
    if ConnName(name, ipPort, a) == ConnName(name, ipPort, b) {
      assert ConnName(name, ipPort, a)[|name| + |pre|..] == Decimal(a);
      assert ConnName(name, ipPort, b)[|name| + |pre|..] == Decimal(b);
      DecimalInjective(a, b);
    }
  }

  /** Names are pairwise different over the whole range of the counter exactly when address and
      port take at most 51 characters, which is when the buffer cuts nothing off; an IPv4
      address and port take at most 21. */
  lemma NamesDifferIff(name: string, ipPort: string)
    ensures (forall a, b :: 1 <= a < b <= INT_MAX ==> ConnName(name, ipPort, a) != ConnName(name, ipPort, b))
            <==> |ipPort| <= 51
  {
    if |ipPort| <= LONGEST_IP_PORT {
      forall a, b | 1 <= a < b <= INT_MAX ensures ConnName(name, ipPort, a) != ConnName(name, ipPort, b) {
        NamesDiffer(name, ipPort, a, b);
      }
    } else {
      var a, b := 2_147_483_640, 2_147_483_641;
      NineDigits();
      var pre := "-" + ipPort + "#";
      assert Decimal(a) == Decimal(214_748_364) + [DIGITS[0]];
      assert Decimal(b) == Decimal(214_748_364) + [DIGITS[1]];
      assert (pre + Decimal(a))[..NAME_BUFFER - 1] == (pre + Decimal(b))[..NAME_BUFFER - 1];
      assert ConnName(name, ipPort, a) == ConnName(name, ipPort, b);
    }
  }

  lemma NineDigits()
    ensures |Decimal(214_748_364)| == 9
  {
  }
}
