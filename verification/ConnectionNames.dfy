// The names under which src/TcpServer.cc keeps its connections: the server's
// name followed by "-<ip:port>#<id>", the second part written by snprintf
// into 64 characters and so cut after 63.
module ConnectionNames {

  const NAME_BUFFER: nat := 64

  function Digit(d: nat): char
    requires d < 10
  {
    ['0', '1', '2', '3', '4', '5', '6', '7', '8', '9'][d]
  }

  // %d of a non-negative int.
  function Decimal(n: nat): (s: string)
    ensures |s| > 0
  {
    if n < 10 then [Digit(n)] else Decimal(n / 10) + [Digit(n % 10)]
  }

  function Cut(s: string): string {
    if |s| < NAME_BUFFER then s else s[..NAME_BUFFER - 1]
  }

  function ConnName(server: string, ipPort: string, id: nat): string {
    server + Cut("-" + ipPort + "#" + Decimal(id))
  }

  // Nothing of "-<ip:port>#<id>" is cut off.
  predicate Fits(ipPort: string, id: nat) {
    1 + |ipPort| + 1 + |Decimal(id)| < NAME_BUFFER
  }

  // What a string of digits stands for.
  function DigitValue(c: char): int {
    c as int - '0' as int
  }

  function ValueOf(s: string): int {
    if s == "" then 0 else 10 * ValueOf(s[..|s| - 1]) + DigitValue(s[|s| - 1])
  }

  /** %d prints the number: digits only, no leading zero, and read back they give it. */
  lemma {:induction false} DecimalReadsBack(n: nat)
    ensures ValueOf(Decimal(n)) == n
    ensures forall i :: 0 <= i < |Decimal(n)| ==> '0' <= Decimal(n)[i] <= '9'
    ensures n > 0 ==> Decimal(n)[0] != '0'
  {
    var s := Decimal(n);
    if n < 10 {
      assert s[..0] == "";
    } else {
      DecimalReadsBack(n / 10);
      assert s[..|s| - 1] == Decimal(n / 10);
    }
  }

  lemma DecimalInjective(a: nat, b: nat)
    requires Decimal(a) == Decimal(b)
    ensures a == b
  {
    DecimalReadsBack(a);
    DecimalReadsBack(b);
  }

  lemma {:induction false} DecimalLengthMonotone(a: nat, b: nat)
    requires a <= b
    ensures |Decimal(a)| <= |Decimal(b)|
  {
    if a >= 10 {
      DecimalLengthMonotone(a / 10, b / 10);
    }
  }

  lemma SameTail(head: string, s: string, t: string)
    requires head + s == head + t
    ensures s == t
  {
    assert (head + s)[|head|..] == s;
    assert (head + t)[|head|..] == t;
  }

  lemma FittingName(server: string, ipPort: string, id: nat)
    requires Fits(ipPort, id)
    ensures ConnName(server, ipPort, id) == (server + ("-" + ipPort + "#")) + Decimal(id)
  {
    assert server + (("-" + ipPort + "#") + Decimal(id)) == (server + ("-" + ipPort + "#")) + Decimal(id);
  }

  lemma FittingNamesDiffer(server: string, ipPort: string, a: nat, b: nat)
    requires Fits(ipPort, a) && Fits(ipPort, b) && a != b
    ensures ConnName(server, ipPort, a) != ConnName(server, ipPort, b)
  {
    FittingName(server, ipPort, a);
    FittingName(server, ipPort, b);
    if ConnName(server, ipPort, a) == ConnName(server, ipPort, b) {
      SameTail(server + ("-" + ipPort + "#"), Decimal(a), Decimal(b));
      DecimalInjective(a, b);
    }
  }

  // The leading digits of a number are a smaller number's digits.
  lemma {:induction false} LeadingDigits(n: nat, len: nat) returns (a: nat)
    requires 1 <= len < |Decimal(n)| && n > 0
    ensures 1 <= a < n && Decimal(a) == Decimal(n)[..len]
  {
    a := n / 10;
    assert Decimal(n)[..|Decimal(n)| - 1] == Decimal(a);
    if len < |Decimal(a)| {
      a := LeadingDigits(a, len);
      assert Decimal(n)[..len] == Decimal(n / 10)[..len];
    }
  }

  lemma CutCollides(server: string, ipPort: string, n: nat) returns (a: nat, b: nat)
    requires n >= 2 && !Fits(ipPort, n)
    ensures 1 <= a < b <= n && ConnName(server, ipPort, a) == ConnName(server, ipPort, b)
  {
    var head := "-" + ipPort + "#";
    if |head| >= NAME_BUFFER - 1 {
      a, b := 1, 2;
      assert Cut(head + Decimal(1)) == head[..NAME_BUFFER - 1] == Cut(head + Decimal(2));
    } else {
      var room := NAME_BUFFER - 1 - |head|;
      a := LeadingDigits(n, room);
      b := n;
      assert Cut(head + Decimal(n)) == head + Decimal(n)[..room] == Cut(head + Decimal(a));
    }
  }

  /** The ids 1 to n get different names exactly when the last of them fits the buffer. */
  lemma NamesDifferIffTheyFit(server: string, ipPort: string, n: nat)
    requires n >= 2
    ensures Fits(ipPort, n) <==>
            forall a: nat, b: nat :: 1 <= a < b <= n ==>
              ConnName(server, ipPort, a) != ConnName(server, ipPort, b)
  {
    if Fits(ipPort, n) {
      forall a: nat, b: nat | 1 <= a < b <= n
        ensures ConnName(server, ipPort, a) != ConnName(server, ipPort, b)
      {
        DecimalLengthMonotone(a, n);
        DecimalLengthMonotone(b, n);
        FittingNamesDiffer(server, ipPort, a, b);
      }
    } else {
      var a, b := CutCollides(server, ipPort, n);
    }
  }

  lemma {:induction false} DecimalLength(n: nat, bound: nat, digits: nat)
    requires n < bound && bound == Power10(digits) && digits >= 1
    ensures |Decimal(n)| <= digits
    decreases digits
  {
    if digits > 1 && n >= 10 {
      DecimalLength(n / 10, Power10(digits - 1), digits - 1);
    }
  }

  function Power10(k: nat): nat {
    if k == 0 then 1 else 10 * Power10(k - 1)
  }

  /** toIpPort() writes at most 21 characters and the id is a 32-bit int: it always fits. */
  lemma IntIdsFit(ipPort: string, id: nat)
    requires |ipPort| <= 21 && id < 0x8000_0000
    ensures Fits(ipPort, id)
  {
    assert Power10(5) == 100000;
    assert Power10(9) == 10000 * Power10(5);
    assert Power10(10) == 10 * Power10(9);
    DecimalLength(id, Power10(10), 10);
  }
}
