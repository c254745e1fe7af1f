/** Remainder facts used by every ring and scan. */
module ModArith {

  lemma MulGap(c: int, d: int)
    requires c > 0
    ensures c * d <= 0 || c * d >= c
    ensures d <= 0 <==> c * d <= 0
    ensures d == 0 <==> c * d == 0
  {
    if d >= 1 {
      assert c * d == c + c * (d - 1);
    } else if d <= -1 {
      assert c * d == c * (d + 1) - c;
    }
  }

  lemma DivModUnique(n: int, c: int, q: int, m: int)
    requires c > 0 && 0 <= m < c && n == c * q + m
    ensures n / c == q && n % c == m
  {
    var d := q - n / c;
    assert c * d == n % c - m;
    MulGap(c, d);
    MulGap(c, -d);
    assert c * -d == -(c * d);
  }

  lemma SmallMod(i: int, c: int)
    requires 0 <= i < c
    ensures i % c == i
  {
    DivModUnique(i, c, 0, i);
  }

  lemma ModAdd(i: int, c: int)
    requires c > 0
    ensures (i + c) % c == i % c
  {
    var q := i / c;
    assert i + c == c * (q + 1) + i % c;
    DivModUnique(i + c, c, q + 1, i % c);
  }

  /** Two numbers less than `c` apart have different remainders. */
  lemma ModDiffers(c: int, i: int, j: int)
    requires c > 0 && i < j < i + c
    ensures i % c != j % c
  {
    var d := j / c - i / c;
    assert j - i == c * d + (j % c - i % c);
    MulGap(c, d);
  }
}
