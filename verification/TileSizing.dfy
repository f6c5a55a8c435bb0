// The sizes of the weight tiles and of a batch (hygcn/config.cpp, TileConfig).
module TileSizing {
  import opened Basics

  function UpperAlign(n: nat, chunk: nat): nat
    requires 0 < chunk
  {
    (n + chunk - 1) / chunk * chunk
  }

  function LowerAlign(n: nat, chunk: nat): nat
    requires 0 < chunk
  {
    n / chunk * chunk
  }

  // The integer part of the square root.
  function Root(n: nat, r: nat): (s: nat)
    requires r * r <= n
    ensures s * s <= n < (s + 1) * (s + 1)
    decreases n - r * r
  {
    if (r + 1) * (r + 1) <= n then Root(n, r + 1) else r
  }

  // Capacities and element sizes in bytes.
  datatype Config = Config(weightH: nat, weightW: nat, block: nat, data: nat, capW: nat, capIn: nat, capOut: nat) {
    predicate Valid() { 0 < weightH && 0 < weightW && 0 < data <= block }

    function Unit(): (n: nat)
      requires Valid()
      ensures 0 < n
    {
      QuotientPositive(block, data);
      block / data
    }

    function High(): (n: nat)
      requires Valid()
      ensures 0 < n
    {
      UpperAligned(weightH, Unit());
      UpperAlign(weightH, Unit())
    }

    function Wide(): (n: nat)
      requires Valid()
      ensures 0 < n
    {
      UpperAligned(weightW, Unit());
      UpperAlign(weightW, Unit())
    }

    // The elements of the weight buffer, and the square tile.
    function Room(): nat
      requires Valid()
    {
      capW / data
    }

    function Square(): nat
      requires Valid()
    {
      LowerAlign(Root(Room(), 0), Unit())
    }

    // The other side of a tile with one side given.
    function Strip(side: nat): nat
      requires Valid() && 0 < side
    {
      LowerAlign(Room() / side, Unit())
    }

    predicate Whole()
      requires Valid()
    {
      High() * Wide() * data <= capW
    }
  }

  datatype Tile = Tile(h: nat, w: nat) | Abort

  function TileSize(c: Config): Tile
    requires c.Valid()
  {
    var h, w, s := c.High(), c.Wide(), c.Square();
    if c.Whole() then Tile(h, w)
    else if h >= s && w >= s then Tile(s, s)
    else if h <= s && w > s then Tile(h, c.Strip(h))
    else if w <= s && h > s then Tile(c.Strip(w), w)
    else Abort
  }

  // ------------------------------------------------------------------ arithmetic

  lemma QuotientOf(a: nat, b: nat)
    requires 0 < b
    ensures a / b * b <= a < a / b * b + b && a / b * b == b * (a / b)
  {
  }

  lemma Grow(a: nat, b: nat, c: nat)
    requires a <= b
    ensures a * c <= b * c && c * a <= c * b
  {
  }

  // A quotient is the greatest number of parts that fit.
  lemma QuotientFits(a: nat, b: nat, n: nat)
    requires 0 < b
    ensures n <= a / b <==> n * b <= a
  {
    QuotientOf(a, b);
    if n <= a / b {
      Grow(n, a / b, b);
    } else {
      Grow(a / b + 1, n, b);
      Once(a / b, b);
    }
  }

  lemma Once(n: nat, b: nat)
    ensures (n + 1) * b == n * b + b
  {
  }

  lemma LowerAligned(n: nat, chunk: nat)
    requires 0 < chunk
    ensures LowerAlign(n, chunk) <= n && (0 < LowerAlign(n, chunk) <==> chunk <= n)
  {
    QuotientOf(n, chunk);
    QuotientFits(n, chunk, 1);
    if chunk <= n {
      Grow(1, n / chunk, chunk);
    }
  }

  lemma UpperAligned(n: nat, chunk: nat)
    requires 0 < chunk && 0 < n
    ensures n <= UpperAlign(n, chunk) < n + chunk && chunk <= UpperAlign(n, chunk)
  {
    QuotientOf(n + chunk - 1, chunk);
    QuotientFits(n + chunk - 1, chunk, 1);
    Grow(1, (n + chunk - 1) / chunk, chunk);
  }

  lemma Assoc(a: nat, b: nat, c: nat)
    ensures a * b * c == a * (b * c) && a * b == b * a
  {
  }

  // Elements that fit in the room fit in the bytes.
  lemma RoomFits(c: Config, n: nat)
    requires c.Valid()
    ensures n <= c.Room() <==> n * c.data <= c.capW
  {
    QuotientFits(c.capW, c.data, n);
  }

  lemma SquareFits(c: Config)
    requires c.Valid()
    ensures c.Square() * c.Square() <= c.Room()
    ensures 0 < c.Square() <==> c.Unit() * c.Unit() <= c.Room()
  {
    var r, s, u := Root(c.Room(), 0), c.Square(), c.Unit();
    LowerAligned(r, u);
    Grow(s, r, s);
    Grow(s, r, r);
    if u <= r {
      Grow(u, r, u);
      Grow(u, r, r);
    } else {
      Grow(r + 1, u, r + 1);
      Grow(r + 1, u, u);
    }
  }

  // ------------------------------------------------------------------ tiles

  // The aborting branch is never taken: a matrix no larger than the square either
  // way would have fitted whole.
  lemma NeverAborts(c: Config)
    requires c.Valid()
    ensures TileSize(c) != Abort
  {
    UpperAligned(c.weightH, c.Unit());
    UpperAligned(c.weightW, c.Unit());
    var h, w, s := c.High(), c.Wide(), c.Square();
    SquareFits(c);
    if h <= s && w <= s {
      Grow(h, s, w);
      Grow(w, s, s);
      RoomFits(c, h * w);
    }
    hide c.Square, c.High, c.Wide, c.Room;
  }

  lemma StripFits(room: nat, h: nat, u: nat)
    requires 0 < h && 0 < u
    ensures h * LowerAlign(room / h, u) <= room
    ensures LowerAlign(room / h, u) * h <= room
  {
    LowerAligned(room / h, u);
    QuotientFits(room, h, LowerAlign(room / h, u));
    Assoc(h, LowerAlign(room / h, u), 1);
  }

  // Every tile fits the weight buffer.
  lemma TileFits(c: Config)
    requires c.Valid()
    ensures var t := TileSize(c); t.Tile? && t.h * t.w * c.data <= c.capW
  {
    NeverAborts(c);
    var h, w, u := c.High(), c.Wide(), c.Unit();
    SquareFits(c);
    RoomFits(c, c.Square() * c.Square());
    StripFits(c.Room(), h, u);
    RoomFits(c, h * LowerAlign(c.Room() / h, u));
    StripFits(c.Room(), w, u);
    RoomFits(c, LowerAlign(c.Room() / w, u) * w);
    hide LowerAlign, c.Room, c.Square, c.High, c.Wide, c.Unit;
  }

  // A strip as long as the square is wide leaves at least the square's other side.
  lemma StripPositive(room: nat, h: nat, s: nat, u: nat)
    requires 0 < h <= s && s * s <= room && 0 < u <= s
    ensures 0 < LowerAlign(room / h, u)
  {
    Grow(h, s, s);
    QuotientFits(room, h, s);
    Assoc(s, h, 1);
    LowerAligned(room / h, u);
  }

  // The tile has a positive size, so that the number of tiles is defined, exactly when
  // the weights fit whole or a square of one block's elements fits.
  lemma TilePositiveIff(c: Config)
    requires c.Valid()
    ensures var t := TileSize(c);
            t.Tile? && (0 < t.h && 0 < t.w <==> c.Whole() || c.Unit() * c.Unit() <= c.Room())
  {
    NeverAborts(c);
    SquareFits(c);
    UpperAligned(c.weightH, c.Unit());
    UpperAligned(c.weightW, c.Unit());
    LowerAligned(Root(c.Room(), 0), c.Unit());
    var h, w, s, u := c.High(), c.Wide(), c.Square(), c.Unit();
    if 0 < s {
      SquareAtLeast(c);
      if h <= s {
        StripPositive(c.Room(), h, s, u);
      }
      if w <= s {
        StripPositive(c.Room(), w, s, u);
      }
    }
    hide LowerAlign, c.Room, c.Square, c.High, c.Wide, c.Unit, c.Whole;
  }

  lemma SquareAtLeast(c: Config)
    requires c.Valid() && 0 < c.Square()
    ensures c.Unit() <= c.Square()
  {
    var r, u := Root(c.Room(), 0), c.Unit();
    Positive(r / u, u);
    Grow(1, r / u, u);
  }

  lemma Positive(a: nat, b: nat)
    requires 0 < a * b
    ensures 0 < a
  {
  }

  // Unless the weights fit whole, the tile is a square or takes a whole side of the
  // weights, and one more block of elements would not fit: of the square on both
  // sides, of the strip along its length.
  lemma TileIsWidest(c: Config)
    requires c.Valid()
    ensures var t, h, w, u, n := TileSize(c), c.High(), c.Wide(), c.Unit(), c.data;
            && t.Tile?
            && (h * w * n <= c.capW ==> t == Tile(h, w))
            && (h * w * n > c.capW ==>
                  || (t.h == t.w <= h && t.w <= w && (t.w + u) * (t.w + u) * n > c.capW)
                  || (t.h == h < w && t.h * (t.w + u) * n > c.capW)
                  || (t.w == w < h && (t.h + u) * t.w * n > c.capW))
            && t.h % u == 0 && t.w % u == 0
  {
    NeverAborts(c);
    SquareMost(c);
    StripMost(c, c.High());
    StripMost(c, c.Wide());
    SidesAligned(c);
    Assoc(c.Strip(c.Wide()) + c.Unit(), c.Wide(), 1);
    hide c.Strip, c.Square, c.High, c.Wide, c.Unit, c.Room;
  }

  lemma AlignedDown(n: nat, chunk: nat)
    requires 0 < chunk
    ensures n < LowerAlign(n, chunk) + chunk && LowerAlign(n, chunk) % chunk == 0
  {
    QuotientOf(n, chunk);
    Quotient(LowerAlign(n, chunk), chunk, n / chunk, 0);
  }

  lemma SquareMost(c: Config)
    requires c.Valid()
    ensures (c.Square() + c.Unit()) * (c.Square() + c.Unit()) * c.data > c.capW
    ensures c.Square() % c.Unit() == 0
  {
    var r, n := Root(c.Room(), 0), c.Square() + c.Unit();
    AlignedDown(r, c.Unit());
    Grow(r + 1, n, n);
    Grow(r + 1, n, r + 1);
    RoomFits(c, n * n);
  }

  lemma StripMost(c: Config, side: nat)
    requires c.Valid() && 0 < side
    ensures side * (c.Strip(side) + c.Unit()) * c.data > c.capW
    ensures c.Strip(side) % c.Unit() == 0
  {
    var n := c.Strip(side) + c.Unit();
    AlignedDown(c.Room() / side, c.Unit());
    QuotientFits(c.Room(), side, n);
    Assoc(n, side, 1);
    RoomFits(c, side * n);
  }

  lemma SidesAligned(c: Config)
    requires c.Valid()
    ensures c.High() % c.Unit() == 0 && c.Wide() % c.Unit() == 0
  {
    var u := c.Unit();
    Quotient(c.High(), u, (c.weightH + u - 1) / u, 0);
    Quotient(c.Wide(), u, (c.weightW + u - 1) / u, 0);
  }

  // ------------------------------------------------------------------ covering

  // Tiles needed along a side.
  function Tiles(side: nat, tile: nat): nat
    requires 0 < tile
  {
    (side + tile - 1) / tile
  }

  // The tiles along a side cover it, and one fewer would not.
  lemma TilesCover(side: nat, tile: nat)
    requires 0 < tile && 0 < side
    ensures 0 < Tiles(side, tile) && (Tiles(side, tile) - 1) * tile < side <= Tiles(side, tile) * tile
  {
    UpperAligned(side, tile);
    QuotientFits(side + tile - 1, tile, 1);
    Once(Tiles(side, tile) - 1, tile);
  }

  // The tiles cover the aligned weights, and so the weights.
  lemma WeightsCovered(c: Config)
    requires c.Valid() && TileSize(c).Tile? && 0 < TileSize(c).h && 0 < TileSize(c).w
    ensures var t := TileSize(c);
            && c.weightH <= c.High() <= Tiles(c.High(), t.h) * t.h
            && c.weightW <= c.Wide() <= Tiles(c.Wide(), t.w) * t.w
            && (Tiles(c.High(), t.h) - 1) * t.h < c.High() && (Tiles(c.Wide(), t.w) - 1) * t.w < c.Wide()
  {
    UpperAligned(c.weightH, c.Unit());
    UpperAligned(c.weightW, c.Unit());
    hide *;
    TilesCover(c.High(), TileSize(c).h);
    TilesCover(c.Wide(), TileSize(c).w);
  }

  // ------------------------------------------------------------------ batches

  // The vertices of a batch, before the source refuses a batch of one.
  function BatchSize(c: Config, t: Tile): nat
    requires c.Valid() && t.Tile? && 0 < t.h * c.data && 0 < t.w * c.data
  {
    if c.capIn / (t.h * c.data) < c.capOut / (t.w * c.data) then c.capIn / (t.h * c.data) else c.capOut / (t.w * c.data)
  }

  // A number of vertices fits both the input and the output buffer exactly when it is
  // at most the batch size; in particular the batch does.
  lemma BatchIsGreatest(c: Config, t: Tile, n: nat)
    requires c.Valid() && t.Tile? && 0 < t.h * c.data && 0 < t.w * c.data
    ensures n <= BatchSize(c, t) <==> n * (t.h * c.data) <= c.capIn && n * (t.w * c.data) <= c.capOut
  {
    QuotientFits(c.capIn, t.h * c.data, n);
    QuotientFits(c.capOut, t.w * c.data, n);
  }
}
