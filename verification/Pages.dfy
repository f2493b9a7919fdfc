/** Pages of a list: which rows a page holds, and what a page past the end becomes. */
module Pages {
  import opened Basics

  datatype Page = Page(number: nat, size: nat)

  /** Go's division, which rounds toward zero. */
  function Quotient(a: int, b: int): int
    requires b > 0
  {
    if a >= 0 then a / b else -(-a / b)
  }

  function Within(p: Page, total: nat): Page
    requires p.size > 0
  {
    var last := Max(0, Quotient(total - 1, p.size));
    p.(number := Min(p.number, last))
  }

  function Rows(p: Page, total: nat): (bounds: (nat, nat))
    ensures bounds.0 <= bounds.1 <= total
  {
    var from := Min(p.number * p.size, total);
    (from, Min(from + p.size, total))
  }

  function Window(p: Page): nat {
    (p.number + 1) * p.size
  }

  lemma QuotientBounds(a: nat, b: nat)
    requires b > 0
    ensures (a / b) * b <= a < (a / b + 1) * b
  {
    assert a == b * (a / b) + a % b;
    assert (a / b + 1) * b == (a / b) * b + b;
  }

  lemma ProductMonotone(a: nat, b: nat, c: nat)
    requires a <= b
    ensures a * c <= b * c
  {
    assert b * c == a * c + (b - a) * c;
  }

  /** A page that has rows is itself; one past the end is the last that has any, or page zero
      of an empty list. */
  lemma WithinIsNearest(p: Page, total: nat)
    requires p.size > 0
    ensures var q := Within(p, total);
            && q.size == p.size && q.number <= p.number
            && (p.number * p.size < total ==> q == p)
            && (0 < total <= p.number * p.size ==> q.number * q.size < total <= (q.number + 1) * q.size)
            && (total == 0 ==> q.number == 0)
  {
    if total > 0 {
      var last := (total - 1) / p.size;
      QuotientBounds(total - 1, p.size);
      if p.number > last {
        ProductMonotone(last + 1, p.number, p.size);
      } else {
        ProductMonotone(p.number, last, p.size);
      }
    }
  }

  /** Each row lies on one page, the one its index divided by the size names. */
  lemma PagesPartition(p: Page, i: nat, total: nat)
    requires p.size > 0 && i < total
    ensures Rows(p, total).0 <= i < Rows(p, total).1 <==> p.number == i / p.size
  {
    var n := i / p.size;
    QuotientBounds(i, p.size);
    if p.number < n {
      ProductMonotone(p.number + 1, n, p.size);
      assert (p.number + 1) * p.size == p.number * p.size + p.size;
    } else if p.number > n {
      ProductMonotone(n + 1, p.number, p.size);
    } else {
      assert (n + 1) * p.size == n * p.size + p.size;
    }
  }
}
