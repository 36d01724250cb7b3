/** The cast of 64-bit session, handle and feed ids to double before they are written to the wire: round
    to nearest, ties to even (section 4.3.1 of IEEE 754-2008), here over the integers. */
module WireDouble {
  import opened Signalling
  import opened Client
  import opened Roles

  const TWO_53: int := 0x20_0000_0000_0000

  function Pow2(e: nat): (r: nat)
    ensures r > 0
  {
    if e == 0 then 1 else 2 * Pow2(e - 1)
  }

  /** The exponent of the spacing of the doubles around `a`. */
  function Exponent(a: nat, e: nat): (r: nat)
    ensures r >= e && a < TWO_53 * Pow2(r)
    ensures r > e ==> TWO_53 * Pow2(r - 1) <= a
    decreases a - TWO_53 * Pow2(e)
  {
    if a < TWO_53 * Pow2(e) then e else Exponent(a, e + 1)
  }

  /** `b * q` or `(b + 1) * q`, whichever is nearer to `b * q + r`; the even one when both are. */
  function Nearer(b: nat, r: nat, q: nat): int {
    if 2 * r < q || (2 * r == q && b % 2 == 0) then b * q else (b + 1) * q
  }

  function RoundNat(a: nat): int {
    var q := Pow2(Exponent(a, 0));
    Nearer(a / q, a % q, q)
  }

  function ToDouble(x: int): int {
    if x < 0 then -RoundNat(-x) else RoundNat(x)
  }

  /** The integers a double can hold: a significand of at most 53 bits, scaled. */
  ghost predicate IsDouble(y: int) {
    exists m: int, e: nat :: Scaled(m, e) == y && -TWO_53 <= m <= TWO_53
  }

  function Scaled(m: int, e: nat): int { m * Pow2(e) }

  function Abs(x: int): nat { if x < 0 then -x else x }

  lemma {:induction false} Pow2Splits(e: nat, k: nat)
    requires k <= e
    ensures Pow2(e) == Pow2(k) * Pow2(e - k)
    decreases e - k
  {
    if k < e {
      Pow2Splits(e - 1, k);
      assert Pow2(e) == 2 * (Pow2(k) * Pow2(e - 1 - k)) == Pow2(k) * (2 * Pow2(e - 1 - k));
    }
  }

  lemma {:induction false} Pow2Grows(e: nat, k: nat)
    requires e <= k
    ensures Pow2(e) <= Pow2(k)
    decreases k
  {
    if e < k {
      Pow2Grows(e, k - 1);
    }
  }

  lemma ScalingOrders(a: int, b: int, q: nat)
    requires q > 0
    ensures a <= b ==> a * q <= b * q
    ensures a * q < b * q ==> a < b
  {
    if a <= b {
      assert (b - a) * q >= 0;
    } else {
      assert (a - b) * q >= 0;
    }
  }

  /** Above the first half of the range of spacing 2^k, every double is a multiple of 2^k. */
  lemma DoublesAreMultiples(y: nat, k: nat) returns (n: int)
    requires IsDouble(y) && (k == 0 || TWO_53 * Pow2(k - 1) < y)
    ensures y == n * Pow2(k)
  {
    var m, e: nat :| Scaled(m, e) == y && -TWO_53 <= m <= TWO_53;
    if e < k {
      Pow2Grows(e, k - 1);
      ScalingOrders(m, TWO_53, Pow2(e));
      ScalingOrders(Pow2(e), Pow2(k - 1), TWO_53);
      assert false;
    }
    Pow2Splits(e, k);
    n := m * Pow2(e - k);
    MulAssociates(m, Pow2(k), Pow2(e - k));
  }

  lemma MulAssociates(m: int, p: int, r: int)
    ensures m * (p * r) == (m * r) * p
  {
  }

  lemma DivMod(a: nat, q: nat)
    requires q > 0
    ensures a == (a / q) * q + a % q && 0 <= a % q < q && a / q >= 0
  {
  }

  /** What rounding `b * q + r` gives, with no double strictly between `b * q` and `(b + 1) * q`. */
  lemma NearerIsNearest(b: nat, r: nat, q: nat, y: int)
    requires r < q && (y <= b * q || (b + 1) * q <= y)
    ensures Abs(Nearer(b, r, q) - (b * q + r)) <= Abs(y - (b * q + r))
  {
    assert (b + 1) * q == b * q + q;
  }

  lemma QuotientBounds(a: nat)
    ensures var k := Exponent(a, 0); var b := a / Pow2(k);
      b < TWO_53 && (k > 0 ==> TWO_53 * Pow2(k - 1) <= b * Pow2(k))
  {
    var k := Exponent(a, 0);
    var q, b := Pow2(k), a / Pow2(k);
    DivMod(a, q);
    ScalingOrders(b, TWO_53, q);
    ScalingOrders(TWO_53, b, q);
    if k > 0 {
      var half := TWO_53 / 2;
      assert TWO_53 * Pow2(k - 1) == half * q;
      ScalingOrders(b + 1, half, q);
      assert (b + 1) * q == b * q + q;
      ScalingOrders(half, b, q);
    }
  }

  /** Of the two multiples of the spacing around `a`, no double is strictly between, and rounding takes the
      nearer one. */
  lemma NatNearest(a: nat, y: nat)
    requires IsDouble(y)
    ensures Abs(RoundNat(a) - a) <= Abs(y - a)
  {
    var k := Exponent(a, 0);
    var q, b := Pow2(k), a / Pow2(k);
    DivMod(a, q);
    QuotientBounds(a);
    if b * q < y {
      var n := DoublesAreMultiples(y, k);
      ScalingOrders(b, n, q);
      ScalingOrders(b + 1, n, q);
    }
    NearerIsNearest(b, a % q, q, y);
  }

  lemma RoundsToDouble(a: nat)
    ensures RoundNat(a) >= 0 && IsDouble(RoundNat(a))
  {
    var k := Exponent(a, 0);
    var b := a / Pow2(k);
    DivMod(a, Pow2(k));
    QuotientBounds(a);
    var m := if RoundNat(a) == b * Pow2(k) then b else b + 1;
    assert Scaled(m, k) == RoundNat(a);
    ScalingOrders(0, m, Pow2(k));
  }

  lemma IsDoubleNegated(y: int)
    requires IsDouble(y)
    ensures IsDouble(-y)
  {
    var m, e: nat :| Scaled(m, e) == y && -TWO_53 <= m <= TWO_53;
    assert Scaled(-m, e) == -y;
  }

  lemma CastIsDouble(x: int)
    ensures IsDouble(ToDouble(x))
  {
    RoundsToDouble(Abs(x));
    IsDoubleNegated(RoundNat(Abs(x)));
  }

  /** The cast gives a double, and none is nearer. */
  lemma CastIsNearest(x: int, y: int)
    requires IsDouble(y)
    ensures IsDouble(ToDouble(x)) && Abs(ToDouble(x) - x) <= Abs(y - x)
  {
    CastIsDouble(x);
    RoundsToDouble(Abs(x));
    IsDoubleNegated(y);
    assert Scaled(0, 0) == 0;
    NatNearest(Abs(x), if (x < 0) == (y < 0) then Abs(y) else 0);
  }

  /** Only a number halfway between two multiples of the spacing has two nearest doubles. */
  lemma TieIsHalfway(a: nat, y: nat)
    requires IsDouble(y) && y != RoundNat(a) && Abs(y - a) == Abs(RoundNat(a) - a)
    ensures var q := Pow2(Exponent(a, 0)); 2 * (a % q) == q && Abs(y - RoundNat(a)) == q
  {
    var k := Exponent(a, 0);
    var q, b := Pow2(k), a / Pow2(k);
    DivMod(a, q);
    QuotientBounds(a);
    if 2 * (a % q) != q {
      BetweenMultiples(b, a % q, q, y);
      var n := DoublesAreMultiples(y, k);
      MultiplesAreApart(b, n, q);
      assert false;
    }
    HalfwayGap(b, a % q, q, y);
  }

  /** The other number as near as the rounded one lies between the same two multiples. */
  lemma BetweenMultiples(b: nat, r: nat, q: nat, y: int)
    requires r < q && 2 * r != q && y != Nearer(b, r, q)
    requires Abs(y - (b * q + r)) == Abs(Nearer(b, r, q) - (b * q + r))
    ensures b * q < y < (b + 1) * q
  {
    assert (b + 1) * q == b * q + q;
  }

  lemma HalfwayGap(b: nat, r: nat, q: nat, y: int)
    requires 2 * r == q && y != Nearer(b, r, q)
    requires Abs(y - (b * q + r)) == Abs(Nearer(b, r, q) - (b * q + r))
    ensures Abs(y - Nearer(b, r, q)) == q
  {
    assert (b + 1) * q == b * q + q;
  }

  lemma MultiplesAreApart(b: int, n: int, q: nat)
    requires q > 0 && b * q < n * q
    ensures (b + 1) * q <= n * q
  {
    ScalingOrders(n, b, q);
    ScalingOrders(b + 1, n, q);
  }

  /** `y` has an even significand at the spacing `gap`. */
  ghost predicate EvenAt(y: int, gap: nat) {
    exists m: int, e: nat :: Scaled(m, e) == y && Pow2(e) == gap && m % 2 == 0
  }

  lemma EvenNegated(y: int, gap: nat)
    requires EvenAt(y, gap)
    ensures EvenAt(-y, gap)
  {
    var m: int, e: nat :| Scaled(m, e) == y && Pow2(e) == gap && m % 2 == 0;
    assert Scaled(-m, e) == -y;
  }

  lemma NatTiesToEven(a: nat, y: nat)
    requires IsDouble(y) && y != RoundNat(a) && Abs(y - a) == Abs(RoundNat(a) - a)
    ensures EvenAt(RoundNat(a), Abs(y - RoundNat(a)))
  {
    var k := Exponent(a, 0);
    var b := a / Pow2(k);
    TieIsHalfway(a, y);
    assert Scaled(if b % 2 == 0 then b else b + 1, k) == RoundNat(a);
  }

  /** A double as near as the cast is on the same side of zero. */
  lemma TiesAreOnOneSide(x: int, y: int)
    requires y != ToDouble(x) && Abs(y - x) == Abs(ToDouble(x) - x)
    ensures if x < 0 then y <= 0 else y >= 0
  {
    assert Scaled(0, 0) == 0;
    CastIsNearest(x, 0);
    RoundsToDouble(Abs(x));
  }

  /** When a second double is as near, the cast is the one with the even significand. */
  lemma TiesToEven(x: int, y: int)
    requires IsDouble(y) && y != ToDouble(x) && Abs(y - x) == Abs(ToDouble(x) - x)
    ensures EvenAt(ToDouble(x), Abs(y - ToDouble(x)))
  {
    TiesAreOnOneSide(x, y);
    if x < 0 {
      IsDoubleNegated(y);
      NatTiesToEven(-x, -y);
      EvenNegated(RoundNat(-x), Abs(y - ToDouble(x)));
    } else {
      NatTiesToEven(x, y);
    }
  }

  lemma NearestIsMonotone(x: int, y: int, rx: int, ry: int)
    requires x < y && Abs(rx - x) <= Abs(ry - x) && Abs(ry - y) <= Abs(rx - y)
    ensures rx <= ry
  {
  }

  /** The cast never reverses two ids. */
  lemma CastIsMonotone(x: int, y: int)
    requires x <= y
    ensures ToDouble(x) <= ToDouble(y)
  {
    var rx, ry := ToDouble(x), ToDouble(y);
    if x < y {
      CastIsDouble(x);
      CastIsDouble(y);
      CastIsNearest(x, ry);
      CastIsNearest(y, rx);
      NearestIsMonotone(x, y, rx, ry);
    }
  }

  /** The cast changes nothing exactly for the ids a double can hold, among them all up to 2^53. */
  lemma CastIsExact(x: int)
    ensures ToDouble(x) == x <==> IsDouble(x)
    ensures Abs(x) <= TWO_53 ==> ToDouble(x) == x
  {
    if Abs(x) <= TWO_53 {
      assert Scaled(x, 0) == x;
    }
    if IsDouble(x) {
      CastIsNearest(x, x);
    }
    CastIsDouble(x);
  }

  ghost predicate Injective(bound: nat) {
    forall x, y :: Abs(x) <= bound && Abs(y) <= bound && x != y ==> ToDouble(x) != ToDouble(y)
  }

  /** Distinct ids stay distinct on the wire exactly when they are bounded by 2^53: the next integer
      already collides with it. */
  lemma DistinctUpTo53Bits(bound: nat)
    ensures Injective(bound) <==> bound <= TWO_53
  {
    if bound <= TWO_53 {
      forall x, y | Abs(x) <= bound && Abs(y) <= bound && x != y ensures ToDouble(x) != ToDouble(y) {
        CastIsExact(x);
        CastIsExact(y);
      }
    } else {
      assert Exponent(TWO_53, 0) == 1 && Exponent(TWO_53 + 1, 0) == 1 by {
        assert Pow2(1) == 2;
      }
      assert ToDouble(TWO_53) == ToDouble(TWO_53 + 1) == TWO_53;
    }
  }

  /** `JoinedBefore` as the server sees it. */
  ghost predicate JoinedOnTheWire(sent: seq<Wire>, k: nat, seat: Seat)
    requires k < |sent| && sent[k].HasHandle()
  {
    exists j :: 0 <= j < k && TakesSeat(sent[j]) && ToDouble(sent[j].handle) == ToDouble(sent[k].handle)
             && seat == SeatOf(sent[j])
  }

  /** `FollowsItsJoin` as the server sees it. */
  ghost predicate FollowsOnTheWire(sent: seq<Wire>, k: nat)
    requires k < |sent|
  {
    match sent[k]
    case Configure(session, _, _, _) =>
      exists room: nat, display: string :: JoinedOnTheWire(sent, k, Seat(session, room, Publisher(display)))
    case Start(session, _, room, _, _) =>
      exists feed: int, privateId: int :: JoinedOnTheWire(sent, k, Seat(session, room, Subscriber(feed, privateId)))
    case TextAck(session, _, _, _) => JoinedOnTheWire(sent, k, TextSeat(session))
    case TrickleIce(session, _, _) =>
      exists room: nat, role: Role :: JoinedOnTheWire(sent, k, Seat(session, room, role))
    case _ => true
  }

  lemma CastJoin(sent: seq<Wire>, k: nat, seat: Seat)
    requires k < |sent| && sent[k].HasHandle() && JoinedBefore(sent, k, seat)
    ensures JoinedOnTheWire(sent, k, seat)
  {
    var j :| 0 <= j < k && TakesSeat(sent[j]) && sent[j].handle == sent[k].handle && seat == SeatOf(sent[j]);
    assert ToDouble(sent[j].handle) == ToDouble(sent[k].handle);
  }

  lemma CastFollows(sent: seq<Wire>, k: nat)
    requires k < |sent| && FollowsItsJoin(sent, k)
    ensures FollowsOnTheWire(sent, k)
  {
    match sent[k]
    case Configure(session, _, _, _) =>
      var room: nat, display: string :| JoinedBefore(sent, k, Seat(session, room, Publisher(display)));
      CastJoin(sent, k, Seat(session, room, Publisher(display)));
    case Start(session, _, room, _, _) =>
      var feed: int, privateId: int :| JoinedBefore(sent, k, Seat(session, room, Subscriber(feed, privateId)));
      CastJoin(sent, k, Seat(session, room, Subscriber(feed, privateId)));
    case TextAck(session, _, _, _) => CastJoin(sent, k, TextSeat(session));
    case TrickleIce(session, _, _) =>
      var room: nat, role: Role :| JoinedBefore(sent, k, Seat(session, room, role));
      CastJoin(sent, k, Seat(session, room, role));
    case _ =>
  }

  /** Role consistency as the server sees it, with handle ids within 2^53: every "configure" follows a
      publisher's join, every "start" a subscriber's join in its room, every trickle a join, every text
      acknowledgement a setup, of the handle on the wire; no handle on the wire sends both "configure" and
      "start", and none joins or is set up twice. */
  lemma RolesOnTheWire<P>(es: seq<Event<P>>, k: nat, l: nat)
    requires Trace(es) && OrderlyRun(Initial(), es)
    requires k < |Final(Initial(), es).m.sent| && l < |Final(Initial(), es).m.sent|
    requires var sent := Final(Initial(), es).m.sent;
      forall i | 0 <= i < |sent| && sent[i].HasHandle() :: Abs(sent[i].handle) <= TWO_53
    ensures var sent := Final(Initial(), es).m.sent;
      && FollowsOnTheWire(sent, k)
      && (sent[k].Configure? && sent[l].Start? ==> ToDouble(sent[k].handle) != ToDouble(sent[l].handle))
      && (TakesSeat(sent[k]) && TakesSeat(sent[l]) && k != l ==> ToDouble(sent[k].handle) != ToDouble(sent[l].handle))
  {
    RolesOverARun(es, k, l);
    CastFollows(Final(Initial(), es).m.sent, k);
    DistinctUpTo53Bits(TWO_53);
  }
}
