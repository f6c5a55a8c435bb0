// The bit-field address map (dramsim3/src/configuration.cc, SetAddressMapping and
// AddressMapping; common.cc, LogBase2; dram_system.cc, GetChannel). Shifting right
// by n is dividing by 2^n and masking with 2^n - 1 is the remainder by 2^n.
module AddressMap {
  import opened Basics
  import D = DramTypes

  // -------------------------------------------------------------- powers of two

  function Pow2(n: nat): (p: nat)
    ensures p >= 1
  {
    if n == 0 then 1 else 2 * Pow2(n - 1)
  }

  // The number of halvings until nothing above 1 is left.
  function Log2(n: nat): nat { if n <= 1 then 0 else 1 + Log2(n / 2) }

  lemma {:induction false} LogBounds(n: nat)
    requires 1 <= n
    ensures Pow2(Log2(n)) <= n < 2 * Pow2(Log2(n))
  {
    if n > 1 {
      LogBounds(n / 2);
    }
  }

  method LogBase2(powerOfTwo: nat) returns (i: nat)
    ensures i == Log2(powerOfTwo)
    ensures powerOfTwo >= 1 ==> Pow2(i) <= powerOfTwo < 2 * Pow2(i)
  {
    var n := powerOfTwo;
    i := 0;
    while n > 1
      invariant i + Log2(n) == Log2(powerOfTwo)
    {
      n := n / 2;
      i := i + 1;
    }
    if powerOfTwo >= 1 {
      LogBounds(powerOfTwo);
    }
  }

  lemma {:induction false} PowAdd(a: nat, b: nat)
    ensures Pow2(a + b) == Pow2(a) * Pow2(b)
  {
    if a > 0 {
      PowAdd(a - 1, b);
      assert Pow2(a) * Pow2(b) == 2 * (Pow2(a - 1) * Pow2(b));
    }
  }

  // ------------------------------------------------------------------ arithmetic

  lemma Associate(a: int, b: int, c: int)
    ensures (a * b) * c == a * (b * c)
  {
  }

  // x = ((x / a) / b) * (a * b) + ((x / a) % b) * a + x % a
  lemma TwoDigits(x: int, a: nat, b: nat)
    requires 0 < a && 0 < b
    ensures 0 < a * b
    ensures x % (a * b) == x % a + (x / a % b) * a
    ensures x / (a * b) == x / a / b
  {
    var low, mid, high := x % a, x / a % b, x / a / b;
    InBox(a, low, b, mid);
    assert x == (high * b + mid) * a + low;
    Distribute(high * b, mid, a);
    Associate(high, b, a);
    Quotient(x, a * b, high, low + mid * a);
  }

  // ------------------------------------------------------- slices of a number

  function Sum(ws: seq<nat>): nat {
    if ws == [] then 0 else ws[0] + Sum(ws[1..])
  }

  // The slice of x that starts at a position and has a width.
  function Slice(x: int, pos: nat, width: nat): (v: int)
    ensures 0 <= v < Pow2(width)
  {
    x / Pow2(pos) % Pow2(width)
  }

  // The slices, lowest first, put together again.
  function Glue(x: int, ws: seq<nat>): int
    decreases |ws|
  {
    if ws == [] then 0 else Slice(x, 0, ws[0]) + Glue(x / Pow2(ws[0]), ws[1..]) * Pow2(ws[0])
  }

  lemma {:induction false} GlueIsRemainder(x: int, ws: seq<nat>)
    ensures Glue(x, ws) == x % Pow2(Sum(ws))
    decreases |ws|
  {
    if ws != [] {
      GlueIsRemainder(x / Pow2(ws[0]), ws[1..]);
      PowAdd(ws[0], Sum(ws[1..]));
      TwoDigits(x, Pow2(ws[0]), Pow2(Sum(ws[1..])));
      assert x / Pow2(0) == x;
    }
  }

  lemma SliceBehind(x: int, first: nat, pos: nat, width: nat)
    ensures Slice(x / Pow2(first), pos, width) == Slice(x, first + pos, width)
  {
    PowAdd(first, pos);
    TwoDigits(x, Pow2(first), Pow2(pos));
  }

  // Equal slices at all the places of a tiling mean equal remainders.
  lemma {:induction false} SameSlices(x: int, y: int, ws: seq<nat>)
    requires forall i :: 0 <= i < |ws| ==> Slice(x, Sum(ws[..i]), ws[i]) == Slice(y, Sum(ws[..i]), ws[i])
    ensures x % Pow2(Sum(ws)) == y % Pow2(Sum(ws))
    decreases |ws|
  {
    GlueIsRemainder(x, ws);
    GlueIsRemainder(y, ws);
    if ws != [] {
      var x', y', rest := x / Pow2(ws[0]), y / Pow2(ws[0]), ws[1..];
      assert ws[..0] == [];
      forall i | 0 <= i < |rest|
        ensures Slice(x', Sum(rest[..i]), rest[i]) == Slice(y', Sum(rest[..i]), rest[i])
      {
        assert ws[..i + 1][1..] == rest[..i];
        SliceBehind(x, ws[0], Sum(rest[..i]), rest[i]);
        SliceBehind(y, ws[0], Sum(rest[..i]), rest[i]);
      }
      SameSlices(x', y', rest);
      GlueIsRemainder(x', rest);
      GlueIsRemainder(y', rest);
    }
  }

  // A slice inside the first n bits is that of the remainder.
  lemma SliceOfRemainder(x: int, pos: nat, width: nat, n: nat)
    requires pos + width <= n
    ensures Slice(x % Pow2(n), pos, width) == Slice(x, pos, width)
  {
    var rest := n - (pos + width);
    PowAdd(pos, width + rest);
    PowAdd(width, rest);
    var a, b, c := Pow2(pos), Pow2(width), Pow2(rest);
    TwoDigits(x, a, b * c);
    Quotient(x % (a * (b * c)), a, x / a % (b * c), x % a);
    TwoDigits(x / a, b, c);
    InBox(b, x / a % b, c, x / a / b % c);
    Quotient(x / a % (b * c), b, x / a / b % c, x / a % b);
  }

  // --------------------------------------------------------------- the six fields

  datatype Field = Channel | Rank | Bankgroup | Bank | Row | Column

  const AllFields: set<Field> := {Channel, Rank, Bankgroup, Bank, Row, Column}

  function FieldOf(token: string): Option<Field> {
    if token == "ch" then Some(Channel)
    else if token == "ra" then Some(Rank)
    else if token == "bg" then Some(Bankgroup)
    else if token == "ba" then Some(Bank)
    else if token == "ro" then Some(Row)
    else if token == "co" then Some(Column)
    else None
  }

  // The dimensions of the configuration; the low bits of a column come with the burst.
  datatype Dims = Dims(channels: nat, ranks: nat, bankgroups: nat, banksPerGroup: nat, rows: nat, columns: nat, burst: nat,
                       requestBytes: nat)
  {
    predicate Valid() {
      1 <= channels && 1 <= ranks && 1 <= bankgroups && 1 <= banksPerGroup && 1 <= rows && 1 <= columns && burst <= columns
    }

    function Count(f: Field): nat {
      match f
      case Channel => channels
      case Rank => ranks
      case Bankgroup => bankgroups
      case Bank => banksPerGroup
      case Row => rows
      case Column => columns
    }

    function Width(f: Field): nat
      requires Valid()
    {
      LogMonotone(burst, columns);
      if f == Column then Log2(columns) - Log2(burst) else Log2(Count(f))
    }
  }

  lemma {:induction false} LogMonotone(a: nat, b: nat)
    requires a <= b
    ensures Log2(a) <= Log2(b)
  {
    if a > 1 {
      LogMonotone(a / 2, b / 2);
    }
  }

  lemma {:induction false} PowMonotone(a: nat, b: nat)
    requires a <= b
    ensures Pow2(a) <= Pow2(b)
  {
    if a < b {
      PowMonotone(a, b - 1);
    }
  }

  // A field is at most as wide as its dimension has room for.
  lemma WidthFits(d: Dims, f: Field)
    requires d.Valid()
    ensures Pow2(d.Width(f)) <= d.Count(f)
  {
    LogBounds(d.Count(f));
    if f == Column {
      PowMonotone(d.Width(f), Log2(d.columns));
    }
  }

  // ------------------------------------------------------------ the mapping text

  function TokenAt(mapping: string, i: nat): string
    requires |mapping| == 12 && i < 6
  {
    mapping[2 * i..2 * i + 2]
  }

  // The fields, lowest first: the text is read from its end.
  predicate Readable(mapping: string) {
    |mapping| == 12 && forall i :: 0 <= i < 6 ==> FieldOf(TokenAt(mapping, i)).Some?
  }

  function Order(mapping: string): (order: seq<Field>)
    requires Readable(mapping)
    ensures |order| == 6
  {
    seq(6, i requires 0 <= i < 6 => FieldOf(TokenAt(mapping, 5 - i)).value)
  }

  // Every field occurs; the source's lookups of the six positions succeed.
  predicate Accepted(mapping: string) {
    Readable(mapping) && forall f: Field :: f in Order(mapping)
  }

  function WidthsOf(d: Dims, order: seq<Field>): (ws: seq<nat>)
    requires d.Valid()
    ensures |ws| == |order|
  {
    seq(|order|, i requires 0 <= i < |order| => d.Width(order[i]))
  }

  function ElementsOf(s: seq<Field>): set<Field> { set f: Field | f in s }

  lemma {:induction false} FewElements(s: seq<Field>)
    ensures |ElementsOf(s)| <= |s|
  {
    if s == [] {
      assert ElementsOf(s) == {};
    } else {
      var n := |s| - 1;
      FewElements(s[..n]);
      assert ElementsOf(s) == ElementsOf(s[..n]) + {s[n]};
    }
  }

  lemma SixFields()
    ensures |AllFields| == 6 && forall f: Field :: f in AllFields
  {
    assert AllFields == {Channel, Rank, Bankgroup, Bank, Row, Column};
    forall f: Field
      ensures f in AllFields
    {
      match f case Channel => case Rank => case Bankgroup => case Bank => case Row => case Column =>
    }
  }

  // A text that names every field names each once.
  lemma NamedOnce(s: seq<Field>, i: nat, j: nat)
    requires |s| == 6 && (forall f: Field :: f in s) && i < j < 6
    ensures s[i] != s[j]
  {
    var rest := s[..j] + s[j + 1..];
    if s[i] == s[j] {
      forall f: Field
        ensures f in rest
      {
        assert f in s;
        var k :| 0 <= k < 6 && s[k] == f;
        assert rest[if k < j then k else if k == j then i else k - 1] == f;
      }
      SixFields();
      assert ElementsOf(rest) == AllFields;
      FewElements(rest);
    }
  }

  // The position of each field is the total width of the fields below it.
  predicate Placed(d: Dims, order: seq<Field>, pos: map<Field, nat>)
    requires d.Valid()
  {
    forall i :: 0 <= i < |order| ==> order[i] in pos && pos[order[i]] == Sum(WidthsOf(d, order)[..i])
  }

  lemma {:induction false} SumPush(ws: seq<nat>, w: nat)
    ensures Sum(ws + [w]) == Sum(ws) + w
  {
    if ws == [] {
      assert ws + [w] == [w];
    } else {
      SumPush(ws[1..], w);
      assert (ws + [w])[1..] == ws[1..] + [w];
    }
  }

  lemma SumNext(ws: seq<nat>, i: nat)
    requires i < |ws|
    ensures Sum(ws[..i + 1]) == Sum(ws[..i]) + ws[i]
  {
    SumPush(ws[..i], ws[i]);
    assert ws[..i + 1] == ws[..i] + [ws[i]];
  }

  // None is an exit: a text of the wrong length, an unknown token, or a field that
  // is missing when its position is looked up.
  method SetAddressMapping(d: Dims, mapping: string) returns (r: Option<map<Field, nat>>)
    requires d.Valid()
    ensures r.Some? <==> Accepted(mapping)
    ensures r.Some? ==> Placed(d, Order(mapping), r.value)
  {
    if |mapping| != 12 {
      return None;
    }
    var fields: seq<string> := [];
    for i := 0 to 6
      invariant |fields| == i && forall k :: 0 <= k < i ==> fields[k] == TokenAt(mapping, k)
    {
      fields := fields + [mapping[2 * i..2 * i + 2]];
    }
    r := PlaceFields(d, mapping, fields);
  }

  // No later field of the first k has the name of the i-th.
  predicate LastNamed(order: seq<Field>, i: nat, k: nat)
    requires i < k <= |order|
  {
    forall j :: i < j < k ==> order[j] != order[i]
  }

  ghost predicate KnownFrom(mapping: string, n: nat)
    requires |mapping| == 12
  {
    forall k :: n <= k < 6 ==> FieldOf(TokenAt(mapping, k)).Some?
  }

  lemma KnownMore(mapping: string, n: nat)
    requires |mapping| == 12 && 0 < n <= 6 && KnownFrom(mapping, n)
    ensures FieldOf(TokenAt(mapping, n - 1)).Some? <==> KnownFrom(mapping, n - 1)
    ensures Readable(mapping) ==> FieldOf(TokenAt(mapping, n - 1)) == Some(Order(mapping)[6 - n])
    ensures KnownFrom(mapping, n - 1) || !Readable(mapping)
  {
  }

  lemma AllKnown(mapping: string)
    requires |mapping| == 12
    ensures KnownFrom(mapping, 6) && (KnownFrom(mapping, 0) <==> Readable(mapping))
  {
  }

  lemma NotAccepted(mapping: string)
    ensures Accepted(mapping) <==> Readable(mapping) && forall f: Field :: f in Order(mapping)
  {
  }

  lemma PlacedNone(d: Dims, order: seq<Field>)
    requires d.Valid()
    ensures PlacedUpTo(d, order, map[], 0, 0)
  {
  }

  predicate HasAll(fieldPos: map<Field, nat>) {
    Channel in fieldPos && Rank in fieldPos && Bankgroup in fieldPos && Bank in fieldPos && Row in fieldPos && Column in fieldPos
  }

  lemma HasAllFields(fieldPos: map<Field, nat>)
    ensures HasAll(fieldPos) <==> forall f: Field :: f in fieldPos
  {
    if HasAll(fieldPos) {
      forall f: Field
        ensures f in fieldPos
      {
        match f case Channel => case Rank => case Bankgroup => case Bank => case Row => case Column =>
      }
    }
  }

  method PlaceFields(d: Dims, mapping: string, tokens: seq<string>) returns (r: Option<map<Field, nat>>)
    requires d.Valid() && |mapping| == 12 && |tokens| == 6 && forall k :: 0 <= k < 6 ==> tokens[k] == TokenAt(mapping, k)
    ensures r.Some? <==> Accepted(mapping)
    ensures r.Some? ==> Placed(d, Order(mapping), r.value)
  {
    hide *;
    var fields: seq<string>, fieldPos: map<Field, nat>, pos: nat := tokens, map[], 0;
    AllKnown(mapping);
    NotAccepted(mapping);
    if Readable(mapping) {
      PlacedNone(d, Order(mapping));
    }
    while fields != []
      invariant |fields| <= 6 && fields == tokens[..|fields|]
      invariant KnownFrom(mapping, |fields|)
      invariant Readable(mapping) ==> PlacedUpTo(d, Order(mapping), fieldPos, pos, 6 - |fields|)
    {
      KnownMore(mapping, |fields|);
      var token := fields[|fields| - 1];
      fields := fields[..|fields| - 1];
      var field := FieldOf(token);
      if field.None? {
        return None;
      }
      if Readable(mapping) {
        PlaceNext(d, Order(mapping), fieldPos, pos, 5 - |fields|);
      }
      fieldPos := fieldPos[field.value := pos];
      pos := pos + d.Width(field.value);
    }
    PlacedAll(d, Order(mapping), fieldPos, pos);
    HasAllFields(fieldPos);
    r := if HasAll(fieldPos) then Some(fieldPos) else None;
  }

  ghost predicate PlacedUpTo(d: Dims, order: seq<Field>, fieldPos: map<Field, nat>, pos: nat, k: nat)
    requires d.Valid()
  {
    && k <= |order|
    && pos == Sum(WidthsOf(d, order)[..k])
    && (forall f: Field :: f in fieldPos <==> f in order[..k])
    && (forall i :: 0 <= i < k && LastNamed(order, i, k) ==> fieldPos[order[i]] == Sum(WidthsOf(d, order)[..i]))
  }

  lemma PlaceNext(d: Dims, order: seq<Field>, fieldPos: map<Field, nat>, pos: nat, k: nat)
    requires d.Valid() && PlacedUpTo(d, order, fieldPos, pos, k) && k < |order|
    ensures PlacedUpTo(d, order, fieldPos[order[k] := pos], pos + d.Width(order[k]), k + 1)
  {
    SumNext(WidthsOf(d, order), k);
    assert order[..k + 1] == order[..k] + [order[k]];
    forall i | 0 <= i < k + 1 && LastNamed(order, i, k + 1)
      ensures fieldPos[order[k] := pos][order[i]] == Sum(WidthsOf(d, order)[..i])
    {
      if i < k {
        assert order[k] != order[i] && LastNamed(order, i, k);
      }
    }
  }

  lemma PlacedAll(d: Dims, order: seq<Field>, fieldPos: map<Field, nat>, pos: nat)
    requires d.Valid() && |order| == 6 && PlacedUpTo(d, order, fieldPos, pos, 6)
    ensures forall f: Field :: f in fieldPos <==> f in order
    ensures (forall f: Field :: f in order) ==> Placed(d, order, fieldPos)
  {
    assert order[..6] == order;
    if forall f: Field :: f in order {
      forall i | 0 <= i < 6
        ensures order[i] in fieldPos && fieldPos[order[i]] == Sum(WidthsOf(d, order)[..i])
      {
        forall j | i < j < 6
          ensures order[j] != order[i]
        {
          NamedOnce(order, i, j);
        }
        assert LastNamed(order, i, 6);
      }
    }
  }

  // ------------------------------------------------------------------ decoding

  // The map that an accepted text gives, with the shift for the bytes of a request.
  datatype Map = Map(d: Dims, order: seq<Field>, pos: map<Field, nat>) {
    ghost predicate Valid() {
      d.Valid() && |order| == 6 && (forall f: Field :: f in order && f in pos) && Placed(d, order, pos)
    }

    function Shift(): nat { Log2(d.requestBytes) }

    // One coordinate of an address.
    function At(hex: int, f: Field): (v: int)
      requires d.Valid() && f in pos
      ensures 0 <= v < Pow2(d.Width(f))
    {
      Slice(hex / Pow2(Shift()), pos[f], d.Width(f))
    }

    // AddressMapping.
    function AddressMapping(hex: int): D.Address
      requires Valid()
    {
      D.Address(At(hex, Channel), At(hex, Rank), At(hex, Bankgroup), At(hex, Bank), At(hex, Row), At(hex, Column))
    }

    // BaseDRAMSystem::GetChannel shifts and masks on its own.
    function GetChannel(hex: int): int
      requires Valid()
    {
      hex / Pow2(Shift()) / Pow2(pos[Channel]) % Pow2(d.Width(Channel))
    }

    // The bits that the map looks at.
    function MappedBits(): nat
      requires d.Valid()
    {
      Sum(WidthsOf(d, order))
    }

    function Mapped(hex: int): int
      requires d.Valid()
    {
      hex / Pow2(Shift()) % Pow2(MappedBits())
    }
  }

  lemma AcceptedIsValid(d: Dims, mapping: string, pos: map<Field, nat>)
    requires d.Valid() && Accepted(mapping) && Placed(d, Order(mapping), pos)
    ensures Map(d, Order(mapping), pos).Valid()
  {
    forall f: Field
      ensures f in pos
    {
      assert f in Order(mapping);
      var i :| 0 <= i < 6 && Order(mapping)[i] == f;
    }
  }

  lemma {:induction false} SumUpTo(ws: seq<nat>, i: nat)
    requires i < |ws|
    ensures Sum(ws[..i]) + ws[i] <= Sum(ws)
  {
    if i == 0 {
      assert ws[..0] == [];
    } else {
      SumUpTo(ws[1..], i - 1);
      assert ws[..i][1..] == ws[1..][..i - 1];
    }
  }

  lemma {:induction false} SumOrdered(ws: seq<nat>, i: nat, j: nat)
    requires i < j < |ws|
    ensures Sum(ws[..i]) + ws[i] <= Sum(ws[..j])
  {
    SumUpTo(ws[..j], i);
    assert ws[..j][..i] == ws[..i];
  }

  // Every field has its own stretch of bits: no two overlap, and all lie within
  // the mapped bits. (As their widths add up to the number of mapped bits, they
  // leave no gap.)
  lemma FieldsTile(m: Map, i: nat, j: nat)
    requires m.Valid() && i < j < 6
    ensures m.order[i] != m.order[j]
    ensures m.pos[m.order[i]] + m.d.Width(m.order[i]) <= m.pos[m.order[j]]
    ensures m.pos[m.order[j]] + m.d.Width(m.order[j]) <= m.MappedBits()
    ensures j == i + 1 ==> m.pos[m.order[i]] + m.d.Width(m.order[i]) == m.pos[m.order[j]]
    ensures i == 0 ==> m.pos[m.order[i]] == 0
    ensures j == 5 ==> m.pos[m.order[j]] + m.d.Width(m.order[j]) == m.MappedBits()
  {
    var ws := WidthsOf(m.d, m.order);
    NamedOnce(m.order, i, j);
    SumOrdered(ws, i, j);
    SumUpTo(ws, j);
    SumNext(ws, i);
    SumNext(ws, j);
    assert ws[..6] == ws && ws[..0] == [];
  }

  // Every coordinate is below its dimension, powers of two or not.
  lemma CoordinatesInRange(m: Map, hex: int, f: Field)
    requires m.Valid()
    ensures 0 <= m.At(hex, f) < m.d.Count(f)
  {
    WidthFits(m.d, f);
  }

  lemma ChannelsAgree(m: Map, hex: int)
    requires m.Valid()
    ensures m.GetChannel(hex) == m.AddressMapping(hex).channel
  {
  }

  lemma SameCoordinates(m: Map, a: int, b: int, i: nat)
    requires m.Valid() && m.AddressMapping(a) == m.AddressMapping(b) && i < 6
    ensures m.At(a, m.order[i]) == m.At(b, m.order[i])
  {
    match m.order[i] case Channel => case Rank => case Bankgroup => case Bank => case Row => case Column =>
  }

  lemma SameBitsSameField(m: Map, a: int, b: int, f: Field)
    requires m.Valid() && m.Mapped(a) == m.Mapped(b)
    ensures m.At(a, f) == m.At(b, f)
  {
    assert f in m.order;
    var i :| 0 <= i < 6 && m.order[i] == f;
    var ws := WidthsOf(m.d, m.order);
    SumUpTo(ws, i);
    SliceOfRemainder(a / Pow2(m.Shift()), m.pos[f], m.d.Width(f), m.MappedBits());
    SliceOfRemainder(b / Pow2(m.Shift()), m.pos[f], m.d.Width(f), m.MappedBits());
  }

  // Two addresses have the same coordinates exactly when they agree on the mapped bits.
  lemma CoordinatesIdentify(m: Map, a: int, b: int)
    requires m.Valid()
    ensures m.AddressMapping(a) == m.AddressMapping(b) <==> m.Mapped(a) == m.Mapped(b)
  {
    if m.AddressMapping(a) == m.AddressMapping(b) {
      var ws := WidthsOf(m.d, m.order);
      var x, y := a / Pow2(m.Shift()), b / Pow2(m.Shift());
      forall i | 0 <= i < |ws|
        ensures Slice(x, Sum(ws[..i]), ws[i]) == Slice(y, Sum(ws[..i]), ws[i])
      {
        SameCoordinates(m, a, b, i);
      }
      SameSlices(x, y, ws);
    }
    if m.Mapped(a) == m.Mapped(b) {
      forall f: Field
        ensures m.At(a, f) == m.At(b, f)
      {
        SameBitsSameField(m, a, b, f);
      }
    }
  }

  // --------------------------------------------------------------- and back

  // The number whose slices of the given widths are the given values.
  function Compose(vs: seq<int>, ws: seq<nat>): int
    requires |vs| == |ws|
    decreases |ws|
  {
    if ws == [] then 0 else vs[0] + Compose(vs[1..], ws[1..]) * Pow2(ws[0])
  }

  lemma {:induction false} ComposeSlices(vs: seq<int>, ws: seq<nat>, i: nat)
    requires |vs| == |ws| && i < |ws| && forall k :: 0 <= k < |ws| ==> 0 <= vs[k] < Pow2(ws[k])
    ensures Slice(Compose(vs, ws), Sum(ws[..i]), ws[i]) == vs[i]
    decreases |ws|
  {
    var x, rest := Compose(vs, ws), Compose(vs[1..], ws[1..]);
    Quotient(x, Pow2(ws[0]), rest, vs[0]);
    if i == 0 {
      assert ws[..0] == [] && x / Pow2(0) == x;
    } else {
      ComposeSlices(vs[1..], ws[1..], i - 1);
      assert ws[..i][1..] == ws[1..][..i - 1];
      SliceBehind(x, ws[0], Sum(ws[1..][..i - 1]), ws[i]);
    }
  }

  function Component(a: D.Address, f: Field): int {
    match f
    case Channel => a.channel
    case Rank => a.rank
    case Bankgroup => a.bankgroup
    case Bank => a.bank
    case Row => a.row
    case Column => a.column
  }

  function ComponentsOf(a: D.Address, order: seq<Field>): (vs: seq<int>)
    ensures |vs| == |order|
  {
    seq(|order|, i requires 0 <= i < |order| => Component(a, order[i]))
  }

  // An address with given coordinates.
  function Encode(m: Map, a: D.Address): int
    requires m.d.Valid()
  {
    Compose(ComponentsOf(a, m.order), WidthsOf(m.d, m.order)) * Pow2(m.Shift())
  }

  lemma EncodeField(m: Map, a: D.Address, f: Field)
    requires m.Valid() && forall g: Field :: 0 <= Component(a, g) < Pow2(m.d.Width(g))
    ensures m.At(Encode(m, a), f) == Component(a, f)
  {
    assert f in m.order;
    var i :| 0 <= i < 6 && m.order[i] == f;
    var vs, ws := ComponentsOf(a, m.order), WidthsOf(m.d, m.order);
    Quotient(Encode(m, a), Pow2(m.Shift()), Compose(vs, ws), 0);
    ComposeSlices(vs, ws, i);
  }

  // Every combination of coordinates that the fields can hold has an address, so
  // the map is a bijection between mapped bits and coordinates.
  lemma EveryCellHasAnAddress(m: Map, a: D.Address)
    requires m.Valid() && forall f: Field :: 0 <= Component(a, f) < Pow2(m.d.Width(f))
    ensures m.AddressMapping(Encode(m, a)) == a
  {
    EncodeField(m, a, Channel);
    EncodeField(m, a, Rank);
    EncodeField(m, a, Bankgroup);
    EncodeField(m, a, Bank);
    EncodeField(m, a, Row);
    EncodeField(m, a, Column);
  }

  // The controller's one demand on its address map.
  lemma DecodesInRange(m: Map, cfg: D.Config)
    requires m.Valid() && cfg.ranks == m.d.ranks && cfg.bankgroups == m.d.bankgroups && cfg.banksPerGroup == m.d.banksPerGroup
    requires forall hex: int :: cfg.decode(hex) == m.AddressMapping(hex)
    ensures cfg.DecodesInRange()
  {
    forall hex: int
      ensures cfg.ValidBank(D.BankId(cfg.decode(hex).rank, cfg.decode(hex).bankgroup, cfg.decode(hex).bank))
    {
      CoordinatesInRange(m, hex, Rank);
      CoordinatesInRange(m, hex, Bankgroup);
      CoordinatesInRange(m, hex, Bank);
    }
  }
}
