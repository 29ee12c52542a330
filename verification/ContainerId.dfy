/** Container identifiers (`tool::CreateUUID` of the Prototype's define.h, for one client):
    a counter of base-36 digits that is counted up from zero, printed with the most
    significant digit first. */
module ContainerId {
  import opened Sequences

  const BASE: nat := 36
  const CONTAINER_ID_LENGTH: nat := 7
  const ALPHABET: string := "0123456789abcdefghijklmnopqrstuvwxyz"

  function Symbol(d: nat): char
    requires d < BASE
  {
    ALPHABET[d]
  }

  function Power(k: nat): (r: nat)
    ensures r > 0
  {
    if k == 0 then 1 else BASE * Power(k - 1)
  }

  /** Digit `i` of `n`, the least significant being digit 0. */
  function Digit(n: nat, i: nat): (d: nat)
    ensures d < BASE
  {
    if i == 0 then n % BASE else Digit(n / BASE, i - 1)
  }

  /** The digits below `i` are all at their maximum: counting up carries into digit `i`. */
  predicate Carry(n: nat, i: nat) {
    i == 0 || (n % BASE == BASE - 1 && Carry(n / BASE, i - 1))
  }

  /** The name of `n`: its digits, most significant first. */
  function Name(n: nat, len: nat): (s: string)
    ensures |s| == len
  {
    seq(len, i requires 0 <= i < len => Symbol(Digit(n, len - 1 - i)))
  }

  // ---- counting up ---------------------------------------------------------

  lemma {:induction false} DigitStep(n: nat, i: nat)
    ensures Digit(n + 1, i) == if Carry(n, i) then (Digit(n, i) + 1) % BASE else Digit(n, i)
  {
    if i > 0 {
      if n % BASE == BASE - 1 {
        assert (n + 1) / BASE == n / BASE + 1;
        DigitStep(n / BASE, i - 1);
      } else {
        assert (n + 1) / BASE == n / BASE;
      }
    }
  }

  lemma {:induction false} CarryNext(n: nat, i: nat)
    ensures Carry(n, i + 1) <==> Carry(n, i) && Digit(n, i) == BASE - 1
  {
    if i > 0 { CarryNext(n / BASE, i - 1); }
  }

  /** A carry out of `k` digits happens first at `BASE^k - 1`. */
  lemma {:induction false} CarryNeeds(n: nat, k: nat)
    ensures Carry(n, k) ==> n + 1 >= Power(k)
    ensures n + 1 == Power(k) ==> Carry(n, k)
  {
    if k > 0 {
      var m := n / BASE;
      assert n == BASE * m + n % BASE;
      CarryNeeds(m, k - 1);
      if n + 1 == Power(k) {
        assert n + 1 == BASE * Power(k - 1);
        LastOfBlock(n, Power(k - 1));
      }
    }
  }

  lemma LastOfBlock(n: nat, p: nat)
    requires n + 1 == BASE * p && p > 0
    ensures n % BASE == BASE - 1 && n / BASE == p - 1
  {
    assert n == BASE * (p - 1) + (BASE - 1);
  }

  /** Counting from zero up to `times` never carries out of `len` digits. */
  predicate StaysInside(times: nat, len: nat) {
    forall j: nat :: j < times ==> !Carry(j, len)
  }

  /** Counting up to `times` in `len` digits stays inside the array exactly when `times`
      is below `36^len`; for seven digits that is so for every `int` that is not negative. */
  lemma InBoundsExactly(times: nat, len: nat)
    ensures StaysInside(times, len) <==> times < Power(len)
    ensures times < 0x8000_0000 ==> StaysInside(times, CONTAINER_ID_LENGTH)
  {
    forall j: nat | j < times && times < Power(len) ensures !Carry(j, len) { CarryNeeds(j, len); }
    CarryNeeds(Power(len) - 1, len);
    forall j: nat | j < times && times < 0x8000_0000 ensures !Carry(j, CONTAINER_ID_LENGTH) {
      assert Power(4) == 1679616;
      assert Power(5) == 36 * Power(4) && Power(6) == 36 * Power(5) && Power(7) == 36 * Power(6);
      CarryNeeds(j, CONTAINER_ID_LENGTH);
    }
  }

  /** `CreateUUID`. */
  method CreateUUID(buffer: array<char>, num: array<nat>, idLen: nat, times: nat)
    requires buffer.Length >= idLen > 0 && num.Length == idLen && times < Power(idLen)
    modifies buffer, num
    ensures buffer[..idLen] == Name(times, idLen)
  {
    var k := 0;
    while k < idLen
      modifies num
      invariant k <= idLen && forall i :: 0 <= i < k ==> num[i] == 0
    {
      num[k] := 0;
      k := k + 1;
    }
    ZeroDigits(idLen);
    var j := 0;
    while j < times
      modifies num
      invariant j <= times && forall i :: 0 <= i < idLen ==> num[i] == Digit(j, i)
    {
      CountUp(num, idLen, j);
      j := j + 1;
    }
    var i := 0;
    while i < idLen
      modifies buffer
      invariant i <= idLen && forall m :: 0 <= m < i ==> buffer[m] == Symbol(Digit(times, idLen - 1 - m))
    {
      buffer[i] := ALPHABET[num[idLen - 1 - i]];
      i := i + 1;
    }
    forall m: nat | m < idLen ensures buffer[m] == Name(times, idLen)[m] { NameAt(times, idLen, m); }
  }

  lemma {:induction false} ZeroDigit(i: nat)
    ensures Digit(0, i) == 0
  {
    if i > 0 { ZeroDigit(i - 1); }
  }

  lemma ZeroDigits(len: nat)
    ensures forall i: nat :: i < len ==> Digit(0, i) == 0
  {
    forall i: nat | i < len ensures Digit(0, i) == 0 { ZeroDigit(i); }
  }

  /** One round of the counting loop: add one, and carry if the first digit is full. */
  method CountUp(num: array<nat>, idLen: nat, j: nat)
    requires num.Length == idLen > 0 && j + 1 < Power(idLen)
    requires forall i :: 0 <= i < idLen ==> num[i] == Digit(j, i)
    modifies num
    ensures forall i :: 0 <= i < idLen ==> num[i] == Digit(j + 1, i)
  {
    forall i: nat ensures Digit(j + 1, i) == (if Carry(j, i) then (Digit(j, i) + 1) % BASE else Digit(j, i)) {
      DigitStep(j, i);
    }
    CarryNeeds(j, idLen);
    num[0] := num[0] + 1;
    if num[0] == BASE {
      var i := 0;
      while i < idLen
        modifies num
        invariant i <= idLen && forall m :: 0 <= m < i ==> num[m] == Digit(j + 1, m)
        invariant forall m :: i < m < idLen ==> num[m] == Digit(j, m)
        invariant i < idLen ==> num[i] == Digit(j, i) + if Carry(j, i) then 1 else 0
      {
        CarryNext(j, i);
        if num[i] == BASE {
          num[i + 1] := num[i + 1] + 1;
          num[i] := 0;
        }
        i := i + 1;
      }
    } else {
      CarryNext(j, 0);
      forall i: nat | 0 < i < idLen ensures !Carry(j, i) {}
    }
  }

  // ---- names ---------------------------------------------------------------

  lemma AlphabetOrder(a: nat, b: nat)
    requires a < b < BASE
    ensures Symbol(a) < Symbol(b)
  {
    SymbolIs(a);
    SymbolIs(b);
  }

  lemma SymbolIs(d: nat)
    requires d < BASE
    ensures Symbol(d) as int == if d < 10 then '0' as int + d else 'a' as int + (d - 10)
  {
  }

  /** The most significant differing digit decides. */
  lemma {:induction false} DiffersAt(a: nat, b: nat, len: nat) returns (i: nat)
    requires a < b < Power(len)
    ensures i < len && Digit(a, i) < Digit(b, i) && forall k :: i < k < len ==> Digit(a, k) == Digit(b, k)
  {
    assert len > 0;
    if a / BASE == b / BASE {
      i := 0;
      forall k | 0 < k < len ensures Digit(a, k) == Digit(b, k) {}
    } else {
      DivideBelow(b, Power(len - 1));
      i := DiffersAt(a / BASE, b / BASE, len - 1);
      i := i + 1;
      forall k | i < k < len ensures Digit(a, k) == Digit(b, k) {
        assert Digit(a / BASE, k - 1) == Digit(b / BASE, k - 1);
      }
    }
  }

  lemma DivideBelow(b: nat, p: nat)
    requires b < BASE * p
    ensures b / BASE < p
  {
  }

  lemma {:induction false} LessAt(a: string, b: string, from: nat, i: nat)
    requires from <= i < |a| && i < |b| && a[i] < b[i] && forall k :: from <= k < i ==> a[k] == b[k]
    ensures LessFrom(a, b, from)
    decreases i - from
  {
    if from < i { LessAt(a, b, from + 1, i); }
  }

  /** Distinct counts have distinct names, and the order of the strings is the order of
      the numbers. */
  lemma NamesInOrder(a: nat, b: nat, len: nat)
    requires a < b < Power(len)
    ensures Less(Name(a, len), Name(b, len)) && Name(a, len) != Name(b, len)
  {
    var i := DiffersAt(a, b, len);
    var s, t, at := Name(a, len), Name(b, len), len - 1 - i;
    forall k: nat | k < at ensures s[k] == t[k] { NameAt(a, len, k); NameAt(b, len, k); }
    NameAt(a, len, at);
    NameAt(b, len, at);
    AlphabetOrder(Digit(a, i), Digit(b, i));
    LessAt(s, t, 0, at);
  }

  lemma NameAt(n: nat, len: nat, k: nat)
    requires k < len
    ensures Name(n, len)[k] == Symbol(Digit(n, len - 1 - k))
  {
  }
}
