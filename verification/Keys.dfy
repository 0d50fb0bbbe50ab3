/** Decimal rendering and the concurrency keys that are built from it. */
module Keys {
  function Digit(d: nat): char
    requires d < 10
  {
    ('0' as int + d) as char
  }

  function Decimal(n: nat): string {
    if n < 10 then [Digit(n)] else Decimal(n / 10) + [Digit(n % 10)]
  }

  lemma {:induction false} DecimalInjective(a: nat, b: nat)
    requires Decimal(a) == Decimal(b)
    ensures a == b
  {
    var x, y := Decimal(a), Decimal(b);
    assert a >= 10 ==> |Decimal(a / 10)| > 0;
    assert b >= 10 ==> |Decimal(b / 10)| > 0;
    assert x[|x| - 1] == y[|y| - 1];
    assert a % 10 == b % 10;
    if a >= 10 && b >= 10 {
      assert x[..|x| - 1] == Decimal(a / 10) && y[..|y| - 1] == Decimal(b / 10);
      DecimalInjective(a / 10, b / 10);
    }
  }

  lemma {:induction false} DecimalHasNoColon(n: nat)
    ensures ':' !in Decimal(n)
  {
    if n >= 10 { DecimalHasNoColon(n / 10); }
  }

  /** Text before the first colon is determined by the whole. */
  lemma {:induction false} SplitAtColon(a: string, b: string, c: string, d: string)
    requires ':' !in a && ':' !in c && a + ":" + b == c + ":" + d
    ensures a == c && b == d
  {
    var left, right := a + ":" + b, c + ":" + d;
    assert left[|a|] == ':' && right[|c|] == ':';
    assert forall i :: 0 <= i < |a| ==> left[i] == a[i];
    assert forall i :: 0 <= i < |c| ==> right[i] == c[i];
    assert |a| == |c|;
    assert a == left[..|a|] && c == right[..|a|];
    assert b == left[|a| + 1..] && d == right[|a| + 1..];
  }

  /** video-batch:{batch}:slot:{slot} */
  function SlotKey(batch: nat, slot: nat): string {
    "video-batch:" + (Decimal(batch) + ":" + ("slot:" + Decimal(slot)))
  }

  /** Batches never share keys, and neither do the slots of one batch. */
  lemma SlotKeyInjective(b1: nat, s1: nat, b2: nat, s2: nat)
    requires SlotKey(b1, s1) == SlotKey(b2, s2)
    ensures b1 == b2 && s1 == s2
  {
    var prefix := "video-batch:";
    var x, y := Decimal(b1) + ":" + ("slot:" + Decimal(s1)), Decimal(b2) + ":" + ("slot:" + Decimal(s2));
    assert x == (prefix + x)[|prefix|..] == SlotKey(b1, s1)[|prefix|..];
    assert y == (prefix + y)[|prefix|..] == SlotKey(b2, s2)[|prefix|..];
    DecimalHasNoColon(b1);
    DecimalHasNoColon(b2);
    SplitAtColon(Decimal(b1), "slot:" + Decimal(s1), Decimal(b2), "slot:" + Decimal(s2));
    assert Decimal(s1) == ("slot:" + Decimal(s1))[5..];
    assert Decimal(s2) == ("slot:" + Decimal(s2))[5..];
    DecimalInjective(b1, b2);
    DecimalInjective(s1, s2);
  }

  /** "{variant}:{client key}", the material behind a script job's idempotency key. */
  function VariantKey(variant: nat, clientKey: string): string { Decimal(variant) + ":" + clientKey }

  lemma VariantKeyInjective(v1: nat, k1: string, v2: nat, k2: string)
    requires VariantKey(v1, k1) == VariantKey(v2, k2)
    ensures v1 == v2 && k1 == k2
  {
    DecimalHasNoColon(v1);
    DecimalHasNoColon(v2);
    SplitAtColon(Decimal(v1), k1, Decimal(v2), k2);
    DecimalInjective(v1, v2);
  }
}
