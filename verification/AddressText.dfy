// What the text of an address mapping means (dramsim3/src/configuration.cc,
// SetAddressMapping), read off its letters: which texts are accepted, where each named
// field lies, how wide it is, and what a step of the address does to the coordinates.
module AddressText {
  import opened Basics
  import opened AddressMap

  // The text names the i-th of its six fields with this token.
  predicate Names(mapping: string, i: nat, token: string) {
    |mapping| == 12 && i < 6 && |token| == 2 && mapping[2 * i] == token[0] && mapping[2 * i + 1] == token[1]
  }

  predicate Mentions(mapping: string, token: string) { exists i :: 0 <= i < 6 && Names(mapping, i, token) }

  // The six tokens of the source.
  function TokenOf(f: Field): (t: string)
    ensures |t| == 2
  {
    match f
    case Channel => "ch"
    case Rank => "ra"
    case Bankgroup => "bg"
    case Bank => "ba"
    case Row => "ro"
    case Column => "co"
  }

  lemma NamesIs(mapping: string, i: nat, token: string)
    requires |mapping| == 12 && i < 6 && |token| == 2
    ensures Names(mapping, i, token) <==> TokenAt(mapping, i) == token
  {
    var t := TokenAt(mapping, i);
    assert t[0] == mapping[2 * i] && t[1] == mapping[2 * i + 1];
  }

  lemma FieldOfToken(f: Field, token: string)
    requires |token| == 2
    ensures FieldOf(token) == Some(f) <==> token == TokenOf(f)
  {
    assert "ch"[0] != "ra"[0] && "ch"[0] != "bg"[0] && "ch"[0] != "ba"[0] && "ch"[0] != "ro"[0];
    assert "ch"[1] != "co"[1] && "ra"[1] != "ro"[1] && "bg"[1] != "ba"[1];
    assert "ra"[0] != "bg"[0] && "ra"[0] != "co"[0] && "bg"[0] != "co"[0];
  }

  // ---------------------------------------------------------------- accepted texts

  lemma AcceptedMentions(mapping: string, f: Field)
    requires Accepted(mapping)
    ensures Mentions(mapping, TokenOf(f))
  {
    assert f in Order(mapping);
    var k :| 0 <= k < 6 && Order(mapping)[k] == f;
    assert FieldOf(TokenAt(mapping, 5 - k)).Some?;
    FieldOfToken(f, TokenAt(mapping, 5 - k));
    NamesIs(mapping, 5 - k, TokenOf(f));
    assert Names(mapping, 5 - k, TokenOf(f));
  }

  ghost predicate MentionsAll(mapping: string) { forall f: Field :: Mentions(mapping, TokenOf(f)) }

  ghost function PlaceOf(mapping: string, f: Field): (i: nat)
    requires MentionsAll(mapping)
    ensures Names(mapping, i, TokenOf(f))
  {
    assert Mentions(mapping, TokenOf(f));
    var i: nat :| i < 6 && Names(mapping, i, TokenOf(f));
    i
  }

  lemma TokensDiffer(f: Field, g: Field)
    requires TokenOf(f) == TokenOf(g)
    ensures f == g
  {
    FieldOfToken(f, TokenOf(f));
    FieldOfToken(g, TokenOf(f));
  }

  lemma PlacesDiffer(mapping: string, f: Field, g: Field)
    requires MentionsAll(mapping) && f != g
    ensures PlaceOf(mapping, f) != PlaceOf(mapping, g)
  {
    if PlaceOf(mapping, f) == PlaceOf(mapping, g) {
      SameToken(mapping, PlaceOf(mapping, f), TokenOf(f), TokenOf(g));
      TokensDiffer(f, g);
    }
  }

  lemma SameToken(mapping: string, i: nat, t: string, u: string)
    requires Names(mapping, i, t) && Names(mapping, i, u)
    ensures t == u
  {
  }

  lemma Full(p: set<nat>, i: nat)
    requires |p| == 6 && (forall q :: q in p ==> q < 6) && i < 6
    ensures i in p
  {
    var all: set<nat> := {0, 1, 2, 3, 4, 5};
    if i !in p {
      var rest := all - {i};
      assert |rest| == 5;
      Subset(p, rest);
    }
  }

  lemma {:induction false} Subset(a: set<nat>, b: set<nat>)
    requires a <= b
    ensures |a| <= |b|
  {
    assert b == a + (b - a);
  }

  lemma OneMore(s: set<nat>, x: nat) returns (s': set<nat>)
    requires x !in s
    ensures |s'| == |s| + 1 && forall q :: q in s' <==> q in s || q == x
  {
    s' := s + {x};
  }

  // Six different places below six are all of them.
  lemma OneOfSix(a: nat, b: nat, c: nat, d: nat, e: nat, f: nat, i: nat)
    requires a < 6 && b < 6 && c < 6 && d < 6 && e < 6 && f < 6 && i < 6
    requires a != b && a != c && a != d && a != e && a != f && b != c && b != d && b != e && b != f
    requires c != d && c != e && c != f && d != e && d != f && e != f
    ensures i == a || i == b || i == c || i == d || i == e || i == f
  {
    var p := OneMore({}, a);
    p := OneMore(p, b);
    p := OneMore(p, c);
    p := OneMore(p, d);
    p := OneMore(p, e);
    p := OneMore(p, f);
    Full(p, i);
  }

  lemma Covered(mapping: string, i: nat) returns (f: Field)
    requires MentionsAll(mapping) && i < 6
    ensures i == PlaceOf(mapping, f)
  {
    forall f: Field, g: Field | f != g
      ensures PlaceOf(mapping, f) != PlaceOf(mapping, g)
    {
      PlacesDiffer(mapping, f, g);
    }
    hide MentionsAll, TokenOf;
    OneOfSix(PlaceOf(mapping, Channel), PlaceOf(mapping, Rank), PlaceOf(mapping, Bankgroup), PlaceOf(mapping, Bank),
             PlaceOf(mapping, Row), PlaceOf(mapping, Column), i);
    f := if i == PlaceOf(mapping, Channel) then Channel
    else if i == PlaceOf(mapping, Rank) then Rank
    else if i == PlaceOf(mapping, Bankgroup) then Bankgroup
    else if i == PlaceOf(mapping, Bank) then Bank
    else if i == PlaceOf(mapping, Row) then Row
    else Column;
  }

  lemma MentionedAccepted(mapping: string)
    requires MentionsAll(mapping)
    ensures Accepted(mapping)
  {
    assert Mentions(mapping, TokenOf(Row));
    forall i | 0 <= i < 6
      ensures FieldOf(TokenAt(mapping, i)).Some?
    {
      var f := Covered(mapping, i);
      NamesIs(mapping, i, TokenOf(f));
      FieldOfToken(f, TokenAt(mapping, i));
    }
    assert Readable(mapping);
    forall f: Field
      ensures f in Order(mapping)
    {
      var i := PlaceOf(mapping, f);
      NamesIs(mapping, i, TokenOf(f));
      FieldOfToken(f, TokenAt(mapping, i));
      assert Order(mapping)[5 - i] == f;
    }
  }

  // A text is accepted exactly when it has twelve letters and mentions all six tokens.
  lemma AcceptedIff(mapping: string)
    ensures Accepted(mapping) <==>
            && Mentions(mapping, "ch") && Mentions(mapping, "ra") && Mentions(mapping, "bg")
            && Mentions(mapping, "ba") && Mentions(mapping, "ro") && Mentions(mapping, "co")
  {
    assert TokenOf(Channel) == "ch" && TokenOf(Rank) == "ra" && TokenOf(Bankgroup) == "bg";
    assert TokenOf(Bank) == "ba" && TokenOf(Row) == "ro" && TokenOf(Column) == "co";
    if Accepted(mapping) {
      forall f: Field
        ensures Mentions(mapping, TokenOf(f))
      {
        AcceptedMentions(mapping, f);
      }
    }
    if Mentions(mapping, "ch") && Mentions(mapping, "ra") && Mentions(mapping, "bg")
       && Mentions(mapping, "ba") && Mentions(mapping, "ro") && Mentions(mapping, "co") {
      forall f: Field
        ensures Mentions(mapping, TokenOf(f))
      {
        match f case Channel => case Rank => case Bankgroup => case Bank => case Row => case Column =>
      }
      MentionedAccepted(mapping);
    }
  }

  // ------------------------------------------------------------------ widths

  // The greatest power of two not above n has this exponent.
  predicate Exponent(n: nat, k: nat) { Pow2(k) <= n < 2 * Pow2(k) }

  lemma OneExponent(n: nat, j: nat, k: nat)
    requires Exponent(n, j) && Exponent(n, k)
    ensures j == k
  {
    if j < k {
      PowMonotone(j + 1, k);
    } else if k < j {
      PowMonotone(k + 1, j);
    }
  }

  lemma ExponentOfPow(k: nat)
    ensures Log2(Pow2(k)) == k
  {
    LogBounds(Pow2(k));
    OneExponent(Pow2(k), Log2(Pow2(k)), k);
  }

  // How many values each field holds: that of its dimension, rounded down to a power
  // of two; a column counts requests, so a power of two of bursts fills a row.
  lemma WidthsOfDims(d: Dims, k: nat, b: nat)
    requires d.Valid()
    ensures Exponent(d.channels, d.Width(Channel)) && Exponent(d.ranks, d.Width(Rank))
    ensures Exponent(d.bankgroups, d.Width(Bankgroup)) && Exponent(d.banksPerGroup, d.Width(Bank)) && Exponent(d.rows, d.Width(Row))
    ensures d.burst == Pow2(b) && d.columns == d.burst * Pow2(k) ==> d.Width(Column) == k
  {
    LogBounds(d.channels);
    LogBounds(d.ranks);
    LogBounds(d.bankgroups);
    LogBounds(d.banksPerGroup);
    LogBounds(d.rows);
    if d.burst == Pow2(b) && d.columns == d.burst * Pow2(k) {
      PowAdd(b, k);
      ExponentOfPow(b);
      ExponentOfPow(b + k);
    }
  }

  // ------------------------------------------------------------------ positions

  // The bits of a token.
  function BitsOf(d: Dims, mapping: string, i: nat): nat
    requires d.Valid() && |mapping| == 12 && i < 6
  {
    if Names(mapping, i, "ch") then d.Width(Channel)
    else if Names(mapping, i, "ra") then d.Width(Rank)
    else if Names(mapping, i, "bg") then d.Width(Bankgroup)
    else if Names(mapping, i, "ba") then d.Width(Bank)
    else if Names(mapping, i, "ro") then d.Width(Row)
    else if Names(mapping, i, "co") then d.Width(Column)
    else 0
  }

  // The bits of the tokens from the i-th to the end of the text.
  function BitsFrom(d: Dims, mapping: string, i: nat): nat
    requires d.Valid() && |mapping| == 12 && i <= 6
    decreases 6 - i
  {
    if i == 6 then 0 else BitsOf(d, mapping, i) + BitsFrom(d, mapping, i + 1)
  }

  lemma BitsAreWidth(d: Dims, mapping: string, i: nat)
    requires d.Valid() && Readable(mapping) && i < 6
    ensures BitsOf(d, mapping, i) == d.Width(Order(mapping)[5 - i])
  {
    var t, f := TokenAt(mapping, i), Order(mapping)[5 - i];
    assert f == FieldOf(t).value;
    NamesIs(mapping, i, "ch");
    NamesIs(mapping, i, "ra");
    NamesIs(mapping, i, "bg");
    NamesIs(mapping, i, "ba");
    NamesIs(mapping, i, "ro");
    NamesIs(mapping, i, "co");
    FieldOfToken(f, t);
    hide Dims.Width, Names, TokenAt;
  }

  lemma {:induction false} BitsAreSum(d: Dims, mapping: string, i: nat)
    requires d.Valid() && Readable(mapping) && i <= 6
    ensures BitsFrom(d, mapping, i) == Sum(WidthsOf(d, Order(mapping))[..6 - i])
    decreases 6 - i
  {
    if i < 6 {
      BitsAreSum(d, mapping, i + 1);
      BitsAreWidth(d, mapping, i);
      SumNext(WidthsOf(d, Order(mapping)), 5 - i);
    }
  }

  // A field named at the i-th place of the text starts behind the bits of all the
  // fields named after it.
  lemma FieldBehindLater(d: Dims, mapping: string, pos: map<Field, nat>, i: nat, f: Field)
    requires d.Valid() && Accepted(mapping) && Placed(d, Order(mapping), pos) && Names(mapping, i, TokenOf(f))
    ensures f in pos && pos[f] == BitsFrom(d, mapping, i + 1)
  {
    NamesIs(mapping, i, TokenOf(f));
    FieldOfToken(f, TokenAt(mapping, i));
    assert Order(mapping)[5 - i] == f;
    BitsAreSum(d, mapping, i + 1);
  }

  // ------------------------------------------------------------------ steps

  lemma StepDown(x: int, n: nat, m: nat)
    requires 0 < n
    ensures (x + n * m) / n == x / n + m && (x + n * m) % n == x % n
  {
    Distribute(x / n, m, n);
    assert n * m == m * n;
    Quotient(x + n * m, n, x / n + m, x % n);
  }

  // Counting one up inside a field that does not overflow leaves what is above it.
  lemma StepInside(y: int, n: nat)
    requires 0 < n
    ensures (y + 1) % n == (y % n + 1) % n
    ensures y % n + 1 < n ==> (y + 1) / n == y / n
  {
    if y % n + 1 < n {
      Quotient(y + 1, n, y / n, y % n + 1);
      Quotient(y % n + 1, n, 0, y % n + 1);
    } else {
      Distribute(y / n, 1, n);
      Quotient(y + 1, n, y / n + 1, 0);
      Quotient(y % n + 1, n, 1, 0);
    }
  }

  lemma StepSlice(x: int, p: nat, w: nat)
    ensures Slice(x + Pow2(p), p, w) == (Slice(x, p, w) + 1) % Pow2(w)
  {
    StepDown(x, Pow2(p), 1);
    StepInside(x / Pow2(p), Pow2(w));
  }

  lemma StepBelow(x: int, p: nat, q: nat, v: nat)
    requires q + v <= p
    ensures Slice(x + Pow2(p), q, v) == Slice(x, q, v)
  {
    StepDown(x, Pow2(p), 1);
    SliceOfRemainder(x, q, v, p);
    SliceOfRemainder(x + Pow2(p), q, v, p);
  }

  lemma StepAbove(x: int, p: nat, w: nat, q: nat, v: nat)
    requires p + w <= q && Slice(x, p, w) + 1 < Pow2(w)
    ensures Slice(x + Pow2(p), q, v) == Slice(x, q, v)
  {
    StepDown(x, Pow2(p), 1);
    StepInside(x / Pow2(p), Pow2(w));
    SliceBehind(x, p, q - p, v);
    SliceBehind(x + Pow2(p), p, q - p, v);
    SliceBehind(x / Pow2(p), w, q - p - w, v);
    SliceBehind((x + Pow2(p)) / Pow2(p), w, q - p - w, v);
  }

  lemma StepShift(m: Map, hex: int, n: nat)
    ensures (hex + Pow2(m.Shift() + n)) / Pow2(m.Shift()) == hex / Pow2(m.Shift()) + Pow2(n)
  {
    PowAdd(m.Shift(), n);
    StepDown(hex, Pow2(m.Shift()), Pow2(n));
  }

  lemma Apart(m: Map, f: Field, g: Field)
    requires m.Valid() && f != g
    ensures m.pos[f] + m.d.Width(f) <= m.pos[g] || m.pos[g] + m.d.Width(g) <= m.pos[f]
  {
    assert f in m.order && g in m.order;
    var i :| 0 <= i < 6 && m.order[i] == f;
    var j :| 0 <= j < 6 && m.order[j] == g;
    if i < j {
      FieldsTile(m, i, j);
    } else {
      FieldsTile(m, j, i);
    }
  }

  // A step of the address by a request, times two to the power of the bits named
  // after a field, counts that field up, round its size, and when it does not
  // overflow changes no other coordinate.
  lemma StepCountsField(m: Map, hex: int, f: Field, g: Field)
    requires m.Valid()
    ensures var hex' := hex + Pow2(m.Shift() + m.pos[f]);
            && m.At(hex', f) == (m.At(hex, f) + 1) % Pow2(m.d.Width(f))
            && (g != f && m.At(hex, f) + 1 < Pow2(m.d.Width(f)) ==> m.At(hex', g) == m.At(hex, g))
  {
    hide *;
    AtIs(m, hex, f);
    AtIs(m, hex, g);
    StepShift(m, hex, m.pos[f]);
    AtIs(m, hex + Pow2(m.Shift() + m.pos[f]), f);
    AtIs(m, hex + Pow2(m.Shift() + m.pos[f]), g);
    StepSlice(hex / Pow2(m.Shift()), m.pos[f], m.d.Width(f));
    if g != f {
      Apart(m, f, g);
      StepOutside(hex / Pow2(m.Shift()), m.pos[f], m.d.Width(f), m.pos[g], m.d.Width(g));
    }
  }

  lemma AtIs(m: Map, hex: int, f: Field)
    requires m.Valid()
    ensures m.d.Valid() && f in m.pos && m.At(hex, f) == Slice(hex / Pow2(m.Shift()), m.pos[f], m.d.Width(f))
  {
  }

  lemma StepOutside(x: int, p: nat, w: nat, q: nat, v: nat)
    requires p + w <= q || q + v <= p
    ensures Slice(x, p, w) + 1 < Pow2(w) ==> Slice(x + Pow2(p), q, v) == Slice(x, q, v)
  {
    hide Slice, Pow2;
    if Slice(x, p, w) + 1 < Pow2(w) {
      if p + w <= q {
        StepAbove(x, p, w, q, v);
      } else {
        StepBelow(x, p, q, v);
      }
    }
  }

  // The next request's address: the field named last counts up, or the last one that
  // has any bits, and the rest of the coordinates stay unless it overflows.
  lemma NextRequest(m: Map, mapping: string, hex: int, i: nat, f: Field, g: Field)
    requires m.Valid() && Accepted(mapping) && m.order == Order(mapping)
    requires Names(mapping, i, TokenOf(f)) && forall j :: i < j < 6 ==> BitsOf(m.d, mapping, j) == 0
    ensures var hex' := hex + Pow2(m.Shift());
            && m.At(hex', f) == (m.At(hex, f) + 1) % Pow2(m.d.Width(f))
            && (g != f && m.At(hex, f) + 1 < Pow2(m.d.Width(f)) ==> m.At(hex', g) == m.At(hex, g))
  {
    FieldBehindLater(m.d, mapping, m.pos, i, f);
    NoBits(m.d, mapping, i + 1);
    StepCountsField(m, hex, f, g);
  }

  lemma {:induction false} NoBits(d: Dims, mapping: string, i: nat)
    requires d.Valid() && |mapping| == 12 && i <= 6 && forall j :: i <= j < 6 ==> BitsOf(d, mapping, j) == 0
    ensures BitsFrom(d, mapping, i) == 0
    decreases 6 - i
  {
    if i < 6 {
      NoBits(d, mapping, i + 1);
    }
  }

  // All bytes of one request have the same coordinates.
  lemma SameRequest(m: Map, hex: int, byte: nat, k: nat, f: Field)
    requires m.Valid() && m.d.requestBytes == Pow2(k) && hex % m.d.requestBytes == 0 && byte < m.d.requestBytes
    ensures m.At(hex + byte, f) == m.At(hex, f)
  {
    ExponentOfPow(k);
    var n := m.d.requestBytes;
    Quotient(hex + byte, n, hex / n, byte);
  }
}
