/**
 * The arithmetic of crossing an edge: a pixel along one screen's border is
 * clamped, scaled to the neighbour's extent and rounded to the nearest pixel.
 */
module EntryMap {
  import opened Core

  /** Nearest integer to p/q, halves upwards, for a non-negative quotient. */
  function RoundQuotient(p: int, q: int): int
    requires 0 <= p && 0 < q
  {
    (2 * p + q) / (2 * q)
  }

  function EntryCoordinate(source: int, sourceExtent: int, targetExtent: int): int {
    if sourceExtent <= 1 || targetExtent <= 1 then 0
    else
      var sourceSpan := sourceExtent - 1;
      var targetSpan := targetExtent - 1;
      var clamped := Clamp(source, 0, sourceSpan);
      assert 0 <= clamped * targetSpan;
      Clamp(RoundQuotient(clamped * targetSpan, sourceSpan), 0, targetSpan)
  }

  /** The rounded quotient is the one integer within half a step, a tie going up. */
  lemma RoundQuotientBounds(p: int, q: int)
    requires 0 <= p && 0 < q
    ensures var r := RoundQuotient(p, q); 2 * (q * r) - q <= 2 * p < 2 * (q * r) + q
  {
    var r := RoundQuotient(p, q);
    var n := 2 * p + q;
    assert n == (2 * q) * r + n % (2 * q);
    assert (2 * q) * r == 2 * (q * r);
  }

  lemma RoundQuotientUnique(p: int, q: int, r: int)
    requires 0 <= p && 0 < q
    requires 2 * (q * r) - q <= 2 * p < 2 * (q * r) + q
    ensures RoundQuotient(p, q) == r
  {
    RoundQuotientBounds(p, q);
    BelowOneStep(q, RoundQuotient(p, q), r);
    BelowOneStep(q, r, RoundQuotient(p, q));
  }

  /** Two multiples of q less than q apart are in order. */
  lemma BelowOneStep(q: int, a: int, b: int)
    requires 0 < q && q * a - q * b < q
    ensures a <= b
  {
    var d := a - b;
    assert q * d == q * a - q * b;
    Positive(q, d);
  }

  lemma Positive(q: int, d: int)
    requires 0 < q && q * d < q
    ensures d <= 0
  {
  }

  lemma ScaleLe(q: int, a: int, b: int)
    requires 0 <= q && a <= b
    ensures q * a <= q * b
  {
  }

  /** Inside the source screen the outer clamp never acts, so the result is the rounded quotient itself. */
  lemma EntryIsRoundedQuotient(c: int, sourceExtent: int, targetExtent: int)
    requires 1 < sourceExtent && 1 < targetExtent && 0 <= c < sourceExtent
    ensures 0 <= c * (targetExtent - 1)
    ensures EntryCoordinate(c, sourceExtent, targetExtent)
         == RoundQuotient(c * (targetExtent - 1), sourceExtent - 1)
  {
    var span, target := sourceExtent - 1, targetExtent - 1;
    ScaleLe(target, 0, c);
    ScaleLe(target, c, span);
    var p := c * target;
    assert 0 <= p <= span * target by {
      assert target * c == c * target && target * span == span * target;
    }
    RoundQuotientBounds(p, span);
    var r := RoundQuotient(p, span);
    BelowOneStep(span, r, target);
    assert span * 0 == 0;
    BelowOneStep(span, 0, r);
  }

  /** Every source coordinate, in range or not, lands on a pixel of the target. */
  lemma EntryInRange(source: int, sourceExtent: int, targetExtent: int)
    requires 0 < targetExtent
    ensures 0 <= EntryCoordinate(source, sourceExtent, targetExtent) < targetExtent
  {
  }

  lemma EntryMonotone(a: int, b: int, sourceExtent: int, targetExtent: int)
    requires a <= b
    ensures EntryCoordinate(a, sourceExtent, targetExtent) <= EntryCoordinate(b, sourceExtent, targetExtent)
  {
    if 1 < sourceExtent && 1 < targetExtent {
      var span, target := sourceExtent - 1, targetExtent - 1;
      var ca, cb := Clamp(a, 0, span), Clamp(b, 0, span);
      ScaleLe(target, ca, cb);
      EntryIsRoundedQuotient(ca, sourceExtent, targetExtent);
      EntryIsRoundedQuotient(cb, sourceExtent, targetExtent);
      RoundQuotientBounds(ca * target, span);
      RoundQuotientBounds(cb * target, span);
      BelowOneStep(span, RoundQuotient(ca * target, span), RoundQuotient(cb * target, span));
    }
  }

  /** The first pixel goes to the first, the last to the last. */
  lemma EntryKeepsCorners(sourceExtent: int, targetExtent: int)
    requires 1 < sourceExtent && 1 < targetExtent
    ensures EntryCoordinate(0, sourceExtent, targetExtent) == 0
    ensures EntryCoordinate(sourceExtent - 1, sourceExtent, targetExtent) == targetExtent - 1
  {
    var span, target := sourceExtent - 1, targetExtent - 1;
    RoundQuotientUnique(0, span, 0);
    EntryIsRoundedQuotient(span, sourceExtent, targetExtent);
    RoundQuotientUnique(span * target, span, target);
  }

  /** Within half a target pixel of exact scaling: |c*T/S - r| <= 1/2, cleared of fractions. */
  lemma EntryWithinHalfPixel(c: int, sourceExtent: int, targetExtent: int)
    requires 1 < sourceExtent && 1 < targetExtent && 0 <= c < sourceExtent
    ensures var S, T, r := sourceExtent - 1, targetExtent - 1, EntryCoordinate(c, sourceExtent, targetExtent);
            2 * (S * r) - S <= 2 * (c * T) < 2 * (S * r) + S
  {
    EntryIsRoundedQuotient(c, sourceExtent, targetExtent);
    RoundQuotientBounds(c * (targetExtent - 1), sourceExtent - 1);
  }

  /** Crossing to a screen at least as large and straight back returns to the same pixel. */
  lemma EntryRoundTrip(c: int, sourceExtent: int, targetExtent: int)
    requires 0 <= c < sourceExtent <= targetExtent
    ensures EntryCoordinate(EntryCoordinate(c, sourceExtent, targetExtent), targetExtent, sourceExtent) == c
  {
    if 1 < sourceExtent {
      var S, T := sourceExtent - 1, targetExtent - 1;
      var r := EntryCoordinate(c, sourceExtent, targetExtent);
      EntryWithinHalfPixel(c, sourceExtent, targetExtent);
      EntryIsRoundedQuotient(r, targetExtent, sourceExtent);
      BackWindow(S, T, c, r);
      RoundQuotientUnique(r * S, T, c);
    }
  }

  /** The rounded image of c lies where rounding back gives c. */
  lemma BackWindow(S: int, T: int, c: int, r: int)
    requires 0 < S <= T && 2 * (S * r) - S <= 2 * (c * T) < 2 * (S * r) + S
    ensures 2 * (T * c) - T <= 2 * (r * S) < 2 * (T * c) + T
  {
    assert S * r == r * S && T * c == c * T;
    if S == T {
      SameSpan(S, c, r);
    }
  }

  lemma SameSpan(S: int, c: int, r: int)
    requires 0 < S && 2 * (S * r) - S <= 2 * (c * S) < 2 * (S * r) + S
    ensures r == c
  {
    assert c * S == S * c;
    assert 2 * (S * r - S * c) <= S;
    BelowOneStep(S, r, c);
    BelowOneStep(S, c, r);
  }

  /** Through a smaller screen and back the error d satisfies 2*T*|d| <= S + T. */
  lemma EntryRoundTripError(c: int, sourceExtent: int, targetExtent: int)
    requires 1 < targetExtent < sourceExtent && 0 <= c < sourceExtent
    ensures var S, T := sourceExtent - 1, targetExtent - 1;
            var d := EntryCoordinate(EntryCoordinate(c, sourceExtent, targetExtent), targetExtent, sourceExtent) - c;
            -(S + T) <= 2 * (T * d) <= S + T
  {
    var S, T := sourceExtent - 1, targetExtent - 1;
    var r := EntryCoordinate(c, sourceExtent, targetExtent);
    EntryWithinHalfPixel(c, sourceExtent, targetExtent);
    EntryWithinHalfPixel(r, targetExtent, sourceExtent);
    var b := EntryCoordinate(r, targetExtent, sourceExtent);
    ErrorBound(S, T, c, r, b);
  }

  lemma ErrorBound(S: int, T: int, c: int, r: int, b: int)
    requires 2 * (S * r) - S <= 2 * (c * T) < 2 * (S * r) + S
    requires 2 * (T * b) - T <= 2 * (r * S) < 2 * (T * b) + T
    ensures -(S + T) <= 2 * (T * (b - c)) <= S + T
  {
    assert T * (b - c) == T * b - c * T;
    assert S * r == r * S;
  }

  /** An expanding map sends interior pixels to interior pixels. */
  lemma EntryKeepsInterior(c: int, sourceExtent: int, targetExtent: int)
    requires 0 < c < sourceExtent - 1 && sourceExtent <= targetExtent
    ensures 0 < EntryCoordinate(c, sourceExtent, targetExtent) < targetExtent - 1
  {
    EntryRoundTrip(c, sourceExtent, targetExtent);
    EntryKeepsCorners(targetExtent, sourceExtent);
    EntryInRange(c, sourceExtent, targetExtent);
  }
}
