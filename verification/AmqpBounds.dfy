/** The bounds of the concrete grammars: every rule the builders can reach lies in a stratum and
    decodes to a bounded number of octets. */
module AmqpBounds {
  import opened Octets
  import opened CText
  import opened Abnf
  import opened AbnfPrint
  import opened Language
  import opened Termination
  import opened Override
  import opened Strata
  import opened AmqpRules
  import opened AmqpGrammar

  /** Bounds of the rules with names of at most six letters. */
  const UPTO6: Bounds := map[
    "OCTET" := Bound(0, 1, 1), "UTF0" := Bound(0, 1, 1), "UTF1" := Bound(0, 1, 1),
    "locale" := Bound(0, 6, 6), "UTF2" := Bound(1, 2, 2), "UTF3" := Bound(1, 3, 3), "UTF4" := Bound(1, 4, 4),
    "SAFE" := Bound(2, 1, 4), "passwd" := Bound(3, 1, 64), "method" := Bound(10, 12, 164)
  ]

  /** Bounds of the rules with names of seven or eight. */
  const UPTO8: Bounds := map[
    "channel" := Bound(0, 2, 2), "class-id" := Bound(0, 2, 2), "UTF8NUL" := Bound(0, 1, 1),
    "shortstr" := Bound(0, 0, 0), "long-int" := Bound(1, 4, 4), "authcid" := Bound(3, 1, 64),
    "message" := Bound(4, 4, 130), "response" := Bound(5, 4, 134)
  ]

  /** Bounds of the rules with names of nine or ten. */
  const UPTO10: Bounds := map[
    "frame-end" := Bound(0, 1, 1), "mechanism" := Bound(0, 6, 6), "short-int" := Bound(1, 2, 2),
    "long-uint" := Bound(1, 4, 4), "method-id" := Bound(1, 2, 2), "reply-text" := Bound(1, 0, 4),
    "frame-max" := Bound(2, 4, 4), "reply-code" := Bound(2, 2, 2)
  ]

  /** Bounds of the rules with names of eleven to thirteen. */
  const UPTO13: Bounds := map[
    "m11-method-id" := Bound(0, 2, 2), "m31-method-id" := Bound(0, 2, 2), "m40-method-id" := Bound(0, 2, 2),
    "m50-method-id" := Bound(0, 2, 2), "m51-method-id" := Bound(0, 2, 2), "virtual-host" := Bound(0, 0, 2),
    "payload-size" := Bound(2, 4, 4), "channel-max" := Bound(2, 2, 2), "method-frame" := Bound(9, 12, 164)
  ]

  /** Bounds of the rules with names of fourteen to seventeen. */
  const UPTO17: Bounds := map[
    "message-length" := Bound(0, 0, 4), "client-properties" := Bound(1, 2, 6),
    "m50-class-id-val" := Bound(1, 2, 2), "heartbeat-time" := Bound(2, 2, 2),
    "m50-method-id-val" := Bound(2, 2, 2), "frame-properties" := Bound(3, 6, 6),
    "method-properties" := Bound(7, 0, 152), "method-payload" := Bound(8, 4, 156)
  ]

  /** Bounds of the rules with longer names. */
  const LONGER: Bounds := map[
    "client-properties-payload" := Bound(0, 2, 2), "client-properties-length" := Bound(0, 0, 4),
    "m51-method-properties" := Bound(0, 0, 0), "m40-method-properties" := Bound(1, 2, 4),
    "m31-method-properties" := Bound(3, 8, 8), "m50-method-properties" := Bound(3, 6, 10),
    "m11-method-properties" := Bound(6, 18, 152)
  ]

  const BOUNDS: Bounds := UPTO6 + UPTO8 + UPTO10 + UPTO13 + UPTO17 + LONGER

  predicate InSomeList(n: string)
  {
    n in UPTO6 || n in UPTO8 || n in UPTO10 || n in UPTO13 || n in UPTO17 || n in LONGER
  }

  predicate At(B: Bounds, n: string, rank: Stratum, lo: nat, hi: nat) { n in B && B[n] == Bound(rank, lo, hi) }

  /** What Stratified asks of one rule. */
  ghost predicate Fit(c: Chain, B: Bounds, n: string)
  {
    n in B && match Lookup(c, n) case None => B[n].lo == 0 case Some(e) => FitsEntry(B, B[n], e)
  }

  ghost predicate FitAll(c: Chain, part: Bounds)
  {
    forall n | n in part :: Fit(c, BOUNDS, n)
  }

  /* --- The shapes rules come in --- */

  lemma DefinedFits(c: Chain, B: Bounds, n: string, alts: seq<seq<Piece>>)
    requires Defines(c, n, alts) && n in B
    requires forall i | 0 <= i < |alts| :: FitsAlternative(B, B[n], ElementsOf(alts[i]))
    ensures Fit(c, B, n)
  {
  }

  /** Lengths and strata of a list of pieces, summed piece by piece. */
  ghost predicate Within(B: Bounds, ps: seq<Piece>, rank: nat, lo: nat, hi: nat)
  {
    var es := ElementsOf(ps);
    LowerAll(B, es, rank) && lo <= LoAll(B, es) && HiAll(B, es) <= hi
  }

  lemma Nothing(B: Bounds, rank: nat)
    ensures Within(B, [], rank, 0, 0)
  {
  }

  lemma Prefixed(B: Bounds, p: Piece, ps: seq<Piece>, rank: nat, lo: nat, hi: nat)
    requires Within(B, ps, rank, lo, hi) && Lower(B, ElementOf(p), rank)
    ensures Within(B, [p] + ps, rank, Lo(B, ElementOf(p)) + lo, Hi(B, ElementOf(p)) + hi)
  {
    var es := ElementsOf([p] + ps);
    assert es[1..] == ElementsOf(ps);
  }

  /** A rule with one alternative. */
  lemma PiecesFit(c: Chain, B: Bounds, n: string, ps: seq<Piece>, lo: nat, hi: nat)
    requires Defines(c, n, [ps]) && n in B && Within(B, ps, B[n].rank, lo, hi) && B[n].lo <= lo && hi <= B[n].hi
    ensures Fit(c, B, n)
  {
    DefinedFits(c, B, n, [ps]);
  }

  lemma One(B: Bounds, p: Piece, rank: nat)
    requires Lower(B, ElementOf(p), rank)
    ensures Within(B, [p], rank, Lo(B, ElementOf(p)), Hi(B, ElementOf(p)))
  {
    Nothing(B, rank);
    Prefixed(B, p, [], rank, 0, 0);
    assert [p] + [] == [p];
  }

  /** Everything a name or a fixed symbol adds. */
  predicate Known(B: Bounds, p: Piece, rank: nat, lo: nat, hi: nat)
  {
    match p
    case Named(x) => x in B && B[x].rank < rank && B[x].lo == lo && B[x].hi == hi
    case Symbol(_, octets) => |octets| == lo == hi
    case Bracketed(_) => lo == hi == 0
    case _ => false
  }

  lemma KnownPiece(B: Bounds, p: Piece, rank: nat, lo: nat, hi: nat)
    requires Known(B, p, rank, lo, hi)
    ensures Lower(B, ElementOf(p), rank) && Lo(B, ElementOf(p)) == lo && Hi(B, ElementOf(p)) == hi
  {
  }

  lemma SymbolFits(c: Chain, B: Bounds, n: string, p: Piece)
    requires Defines(c, n, [[p]]) && n in B && p.Symbol? && B[n].lo <= |p.octets| <= B[n].hi
    ensures Fit(c, B, n)
  {
    KnownPiece(B, p, B[n].rank, |p.octets|, |p.octets|);
    One(B, p, B[n].rank);
    PiecesFit(c, B, n, [p], |p.octets|, |p.octets|);
  }

  lemma IntervalFits(c: Chain, B: Bounds, n: string, lo: seq<byte>, hi: seq<byte>)
    requires Defines(c, n, [[HexTo(lo, hi)]]) && n in B
    requires Value(lo) != Value(hi) && B[n].lo <= Width(Value(hi)) <= B[n].hi
    ensures Fit(c, B, n)
  {
    var p := HexTo(lo, hi);
    One(B, p, B[n].rank);
    PiecesFit(c, B, n, [p], Width(Value(hi)), Width(Value(hi)));
  }

  lemma AliasFits(c: Chain, B: Bounds, n: string, x: string)
    requires Defines(c, n, [[Named(x)]]) && n in B && x in B && B[x].rank < B[n].rank
    requires B[n].lo <= B[x].lo && B[x].hi <= B[n].hi
    ensures Fit(c, B, n)
  {
    KnownPiece(B, Named(x), B[n].rank, B[x].lo, B[x].hi);
    One(B, Named(x), B[n].rank);
    PiecesFit(c, B, n, [Named(x)], B[x].lo, B[x].hi);
  }

  lemma CopiesFits(c: Chain, B: Bounds, n: string, k: nat, x: string)
    requires Defines(c, n, [[Exactly(k, Named(x))]]) && n in B && x in B && B[x].rank < B[n].rank
    requires B[x].lo == B[x].hi == 1 && B[n].lo <= k <= B[n].hi
    ensures Fit(c, B, n)
  {
    var p := Exactly(k, Named(x));
    assert ElementOf(p) == Repeat(k, k, Rule(x));
    assert Lo(B, Rule(x)) == 1 && Hi(B, Rule(x)) == 1;
    assert k * 1 == k;
    One(B, p, B[n].rank);
    PiecesFit(c, B, n, [p], k, k);
  }

  lemma RepeatedFits(c: Chain, B: Bounds, n: string, x: string)
    requires Defines(c, n, [[AtLeast(1, Named(x))]]) && n in B && x in B && B[x].rank < B[n].rank
    requires B[n].lo <= B[x].lo && REPETITION_INFTY * B[x].hi <= B[n].hi
    ensures Fit(c, B, n)
  {
    var p := AtLeast(1, Named(x));
    One(B, p, B[n].rank);
    assert ElementOf(p) == Repeat(1, REPETITION_INFTY, Rule(x));
    assert Lo(B, Rule(x)) == B[x].lo && Hi(B, Rule(x)) == B[x].hi;
    assert MaxCount(1, REPETITION_INFTY) == REPETITION_INFTY;
    PiecesFit(c, B, n, [p], B[x].lo, REPETITION_INFTY * B[x].hi);
  }

  /** Two to five pieces that are names, fixed symbols or bracketed text. */
  predicate Plainly(p: Piece) { p.Named? || p.Symbol? || p.Bracketed? }

  function Least(B: Bounds, p: Piece): nat
    requires Plainly(p) && (p.Named? ==> p.name in B)
  {
    match p case Named(x) => B[x].lo case Symbol(_, octets) => |octets| case _ => 0
  }

  function Most(B: Bounds, p: Piece): nat
    requires Plainly(p) && (p.Named? ==> p.name in B)
  {
    match p case Named(x) => B[x].hi case Symbol(_, octets) => |octets| case _ => 0
  }

  predicate Under(B: Bounds, p: Piece, rank: nat)
  {
    Plainly(p) && (p.Named? ==> p.name in B && B[p.name].rank < rank)
  }

  lemma Added(B: Bounds, p: Piece, ps: seq<Piece>, rank: nat, lo: nat, hi: nat)
    requires Within(B, ps, rank, lo, hi) && Under(B, p, rank)
    ensures Within(B, [p] + ps, rank, Least(B, p) + lo, Most(B, p) + hi)
  {
    KnownPiece(B, p, rank, Least(B, p), Most(B, p));
    Prefixed(B, p, ps, rank, lo, hi);
  }

  lemma TwoFit(c: Chain, B: Bounds, n: string, p: Piece, q: Piece)
    requires Defines(c, n, [[p, q]]) && n in B && Under(B, p, B[n].rank) && Under(B, q, B[n].rank)
    requires B[n].lo <= Least(B, p) + Least(B, q) && Most(B, p) + Most(B, q) <= B[n].hi
    ensures Fit(c, B, n)
  {
    hide Within, Defines, Fit;
    var k := B[n].rank;
    Nothing(B, k);
    Added(B, q, [], k, 0, 0);
    assert [q] + [] == [q];
    Added(B, p, [q], k, Least(B, q), Most(B, q));
    assert [p] + [q] == [p, q];
    PiecesFit(c, B, n, [p, q], Least(B, p) + Least(B, q), Most(B, p) + Most(B, q));
  }

  lemma ThreeFit(c: Chain, B: Bounds, n: string, p: Piece, q: Piece, r: Piece)
    requires Defines(c, n, [[p, q, r]]) && n in B
    requires var k := B[n].rank; Under(B, p, k) && Under(B, q, k) && Under(B, r, k)
    requires B[n].lo <= Least(B, p) + Least(B, q) + Least(B, r)
    requires Most(B, p) + Most(B, q) + Most(B, r) <= B[n].hi
    ensures Fit(c, B, n)
  {
    hide Within, Defines, Fit;
    var k := B[n].rank;
    var lo, hi := Tail2(B, q, r, k);
    Added(B, p, [q, r], k, lo, hi);
    assert [p] + [q, r] == [p, q, r];
    PiecesFit(c, B, n, [p, q, r], Least(B, p) + lo, Most(B, p) + hi);
  }

  lemma Tail2(B: Bounds, q: Piece, r: Piece, k: nat) returns (lo: nat, hi: nat)
    requires Under(B, q, k) && Under(B, r, k)
    ensures lo == Least(B, q) + Least(B, r) && hi == Most(B, q) + Most(B, r) && Within(B, [q, r], k, lo, hi)
  {
    hide Within;
    Nothing(B, k);
    Added(B, r, [], k, 0, 0);
    assert [r] + [] == [r];
    Added(B, q, [r], k, Least(B, r), Most(B, r));
    assert [q] + [r] == [q, r];
    lo, hi := Least(B, q) + Least(B, r), Most(B, q) + Most(B, r);
  }

  lemma Tail3(B: Bounds, p: Piece, q: Piece, r: Piece, k: nat) returns (lo: nat, hi: nat)
    requires Under(B, p, k) && Under(B, q, k) && Under(B, r, k)
    ensures lo == Least(B, p) + Least(B, q) + Least(B, r) && hi == Most(B, p) + Most(B, q) + Most(B, r)
    ensures Within(B, [p, q, r], k, lo, hi)
  {
    hide Within;
    lo, hi := Tail2(B, q, r, k);
    Added(B, p, [q, r], k, lo, hi);
    assert [p] + [q, r] == [p, q, r];
    lo, hi := Least(B, p) + lo, Most(B, p) + hi;
  }

  lemma FourFit(c: Chain, B: Bounds, n: string, p: Piece, q: Piece, r: Piece, s: Piece)
    requires Defines(c, n, [[p, q, r, s]]) && n in B
    requires var k := B[n].rank; Under(B, p, k) && Under(B, q, k) && Under(B, r, k) && Under(B, s, k)
    requires B[n].lo <= Least(B, p) + Least(B, q) + Least(B, r) + Least(B, s)
    requires Most(B, p) + Most(B, q) + Most(B, r) + Most(B, s) <= B[n].hi
    ensures Fit(c, B, n)
  {
    hide Within, Defines, Fit;
    var k := B[n].rank;
    var lo, hi := Tail3(B, q, r, s, k);
    Added(B, p, [q, r, s], k, lo, hi);
    assert [p] + [q, r, s] == [p, q, r, s];
    PiecesFit(c, B, n, [p, q, r, s], Least(B, p) + lo, Most(B, p) + hi);
  }

  lemma FiveFit(c: Chain, B: Bounds, n: string, p: Piece, q: Piece, r: Piece, s: Piece, t: Piece)
    requires Defines(c, n, [[p, q, r, s, t]]) && n in B
    requires var k := B[n].rank; Under(B, p, k) && Under(B, q, k) && Under(B, r, k) && Under(B, s, k) && Under(B, t, k)
    requires B[n].lo <= Least(B, p) + Least(B, q) + Least(B, r) + Least(B, s) + Least(B, t)
    requires Most(B, p) + Most(B, q) + Most(B, r) + Most(B, s) + Most(B, t) <= B[n].hi
    ensures Fit(c, B, n)
  {
    hide Within, Defines, Fit;
    var k := B[n].rank;
    var lo, hi := Tail3(B, r, s, t, k);
    Added(B, q, [r, s, t], k, lo, hi);
    assert [q] + [r, s, t] == [q, r, s, t];
    Added(B, p, [q, r, s, t], k, Least(B, q) + lo, Most(B, q) + hi);
    assert [p] + [q, r, s, t] == [p, q, r, s, t];
    PiecesFit(c, B, n, [p, q, r, s, t], Least(B, p) + Least(B, q) + lo, Most(B, p) + Most(B, q) + hi);
  }

  /** A range before one octet, as the two-octet UTF-8 characters are written. */
  lemma IntervalNamed(B: Bounds, p: Piece, ps: seq<Piece>, rank: nat, lo: nat, hi: nat)
    requires p.Interval? && Value(p.lo) != Value(p.hi) && Width(Value(p.hi)) == 1 && Within(B, ps, rank, lo, hi)
    ensures Within(B, [p] + ps, rank, 1 + lo, 1 + hi)
  {
    Prefixed(B, p, ps, rank, lo, hi);
  }

  /** `k` copies of a one-octet rule. */
  lemma Trailing(B: Bounds, x: string, k: nat, rank: nat)
    requires x in B && B[x].lo == B[x].hi == 1 && B[x].rank < rank
    ensures Within(B, [Named(x)], rank, 1, 1) && Within(B, [Exactly(k, Named(x))], rank, k, k)
  {
    One(B, Named(x), rank);
    assert k * B[x].lo == k;
    One(B, Exactly(k, Named(x)), rank);
  }

  /** One octet out of a range of octets, of which the last is at least 2. */
  predicate OctetRange(p: Piece) { p.Interval? && |p.lo| == |p.hi| == 1 && p.lo[0] < p.hi[0] && 2 <= p.hi[0] }

  lemma OctetRangeWidth(p: Piece)
    requires OctetRange(p)
    ensures Value(p.lo) == p.lo[0] && Value(p.hi) == p.hi[0] && Width(Value(p.hi)) == 1
  {
    assert p.lo[..0] == [] && p.hi[..0] == [];
  }

  lemma TwoOctets(B: Bounds, p: Piece, x: string, rank: nat)
    requires OctetRange(p) && x in B && B[x].lo == B[x].hi == 1 && B[x].rank < rank
    ensures Within(B, [p, Named(x)], rank, 2, 2)
    ensures Within(B, [p, Exactly(2, Named(x))], rank, 3, 3)
    ensures Within(B, [p, Exactly(3, Named(x))], rank, 4, 4)
  {
    OctetRangeWidth(p);
    Trailing(B, x, 2, rank);
    Trailing(B, x, 3, rank);
    IntervalNamed(B, p, [Named(x)], rank, 1, 1);
    IntervalNamed(B, p, [Exactly(2, Named(x))], rank, 2, 2);
    IntervalNamed(B, p, [Exactly(3, Named(x))], rank, 3, 3);
    assert [p] + [Named(x)] == [p, Named(x)];
    assert [p] + [Exactly(2, Named(x))] == [p, Exactly(2, Named(x))];
    assert [p] + [Exactly(3, Named(x))] == [p, Exactly(3, Named(x))];
  }

  lemma OctetBefore(B: Bounds, p: Piece, q: Piece, r: Piece, rank: nat, size: nat)
    requires p.Symbol? && |p.octets| == 1 && Within(B, [q, r], rank, size, size)
    ensures Within(B, [p, q, r], rank, 1 + size, 1 + size)
  {
    KnownPiece(B, p, rank, 1, 1);
    Prefixed(B, p, [q, r], rank, size, size);
    assert [p] + [q, r] == [p, q, r];
  }

  lemma AllFit(c: Chain, B: Bounds, n: string, alts: seq<seq<Piece>>)
    requires Defines(c, n, alts) && n in B
    requires forall i | 0 <= i < |alts| :: Within(B, alts[i], B[n].rank, B[n].lo, B[n].hi)
    ensures Fit(c, B, n)
  {
    DefinedFits(c, B, n, alts);
  }

  lemma TwoOctetsFit(c: Chain, B: Bounds, n: string, p: Piece, x: string)
    requires Defines(c, n, [[p, Named(x)]]) && At(B, n, 1, 2, 2) && At(B, x, 0, 1, 1) && OctetRange(p)
    ensures Fit(c, B, n)
  {
    TwoOctets(B, p, x, 1);
    PiecesFit(c, B, n, [p, Named(x)], 2, 2);
  }

  lemma ThreeOctetsFit(c: Chain, B: Bounds, n: string, x: string)
    requires Defines(c, n, Utf3Rule(x))
    requires At(B, n, 1, 3, 3) && At(B, x, 0, 1, 1)
    ensures Fit(c, B, n)
  {
    hide Within, Fit, Defines;
    var p, two := Named(x), Exactly(2, Named(x));
    TwoOctets(B, HexTo([0xA0], [0xBF]), x, 1);
    TwoOctets(B, HexTo([0xE1], [0xEC]), x, 1);
    TwoOctets(B, HexTo([0x80], [0x9F]), x, 1);
    TwoOctets(B, HexTo([0xEE], [0xEF]), x, 1);
    OctetBefore(B, Hex([0xE0]), HexTo([0xA0], [0xBF]), p, 1, 2);
    OctetBefore(B, Hex([0xED]), HexTo([0x80], [0x9F]), p, 1, 2);
    AllFit(c, B, n, Utf3Rule(x));
  }

  lemma FourOctetsFit(c: Chain, B: Bounds, n: string, x: string)
    requires Defines(c, n, Utf4Rule(x))
    requires At(B, n, 1, 4, 4) && At(B, x, 0, 1, 1)
    ensures Fit(c, B, n)
  {
    hide Within, Fit, Defines;
    var two, three := Exactly(2, Named(x)), Exactly(3, Named(x));
    TwoOctets(B, HexTo([0x90], [0xBF]), x, 1);
    TwoOctets(B, HexTo([0xF1], [0xF3]), x, 1);
    TwoOctets(B, HexTo([0x80], [0x8F]), x, 1);
    OctetBefore(B, Hex([0xF0]), HexTo([0x90], [0xBF]), two, 1, 3);
    OctetBefore(B, Hex([0xF4]), HexTo([0x80], [0x8F]), two, 1, 3);
    AllFit(c, B, n, Utf4Rule(x));
  }

  lemma FourWaysFit(c: Chain, B: Bounds, n: string, w: string, x: string, y: string, z: string)
    requires Defines(c, n, [[Named(w)], [Named(x)], [Named(y)], [Named(z)]]) && n in B
    requires forall m | m in [w, x, y, z] :: m in B && B[m].rank < B[n].rank && B[n].lo <= B[m].lo && B[m].hi <= B[n].hi
    ensures Fit(c, B, n)
  {
    hide Defines, Fit;
    var alts := [[Named(w)], [Named(x)], [Named(y)], [Named(z)]];
    forall i | 0 <= i < |alts| ensures Within(B, alts[i], B[n].rank, B[n].lo, B[n].hi) {
      var m := [w, x, y, z][i];
      assert alts[i] == [Named(m)];
      One(B, Named(m), B[n].rank);
    }
    AllFit(c, B, n, alts);
  }

  predicate Lengths(part: Bounds, lo: nat, hi: nat) { forall n | n in part :: lo <= |n| <= hi }

  lemma Upto6Lengths()
    ensures Lengths(UPTO6, 0, 6)
  {
  }

  lemma Upto8Lengths()
    ensures Lengths(UPTO8, 7, 8)
  {
  }

  lemma Upto10Lengths()
    ensures Lengths(UPTO10, 9, 10)
  {
  }

  lemma Upto13Lengths()
    ensures Lengths(UPTO13, 11, 13)
  {
  }

  lemma Upto17Lengths()
    ensures Lengths(UPTO17, 14, 17)
  {
  }

  lemma LongerLengths()
    ensures Lengths(LONGER, 18, 99)
  {
  }

  /** The lists are told apart by the lengths of their names, so each keeps its bounds in the union. */
  lemma Kept()
    ensures forall n | n in UPTO6 :: n in BOUNDS && BOUNDS[n] == UPTO6[n]
    ensures forall n | n in UPTO8 :: n in BOUNDS && BOUNDS[n] == UPTO8[n]
    ensures forall n | n in UPTO10 :: n in BOUNDS && BOUNDS[n] == UPTO10[n]
    ensures forall n | n in UPTO13 :: n in BOUNDS && BOUNDS[n] == UPTO13[n]
    ensures forall n | n in UPTO17 :: n in BOUNDS && BOUNDS[n] == UPTO17[n]
    ensures forall n | n in LONGER :: n in BOUNDS && BOUNDS[n] == LONGER[n]
    ensures forall n | n in BOUNDS :: InSomeList(n)
  {
    hide UPTO6, UPTO8, UPTO10, UPTO13, UPTO17, LONGER;
    Upto6Lengths();
    Upto8Lengths();
    Upto10Lengths();
    Upto13Lengths();
    Upto17Lengths();
    LongerLengths();
  }

  lemma Upto6At()
    ensures At(BOUNDS, "OCTET", 0, 1, 1)
    ensures At(BOUNDS, "UTF0", 0, 1, 1)
    ensures At(BOUNDS, "UTF1", 0, 1, 1)
    ensures At(BOUNDS, "locale", 0, 6, 6)
    ensures At(BOUNDS, "UTF2", 1, 2, 2)
    ensures At(BOUNDS, "UTF3", 1, 3, 3)
    ensures At(BOUNDS, "UTF4", 1, 4, 4)
    ensures At(BOUNDS, "SAFE", 2, 1, 4)
    ensures At(BOUNDS, "passwd", 3, 1, 64)
    ensures At(BOUNDS, "method", 10, 12, 164)
  {
    hide BOUNDS, UPTO8, UPTO10, UPTO13, UPTO17, LONGER;
    Kept();
  }

  lemma Upto8At()
    ensures At(BOUNDS, "channel", 0, 2, 2)
    ensures At(BOUNDS, "class-id", 0, 2, 2)
    ensures At(BOUNDS, "UTF8NUL", 0, 1, 1)
    ensures At(BOUNDS, "shortstr", 0, 0, 0)
    ensures At(BOUNDS, "long-int", 1, 4, 4)
    ensures At(BOUNDS, "authcid", 3, 1, 64)
    ensures At(BOUNDS, "message", 4, 4, 130)
    ensures At(BOUNDS, "response", 5, 4, 134)
  {
    hide BOUNDS, UPTO6, UPTO10, UPTO13, UPTO17, LONGER;
    Kept();
  }

  lemma Upto10At()
    ensures At(BOUNDS, "frame-end", 0, 1, 1)
    ensures At(BOUNDS, "mechanism", 0, 6, 6)
    ensures At(BOUNDS, "short-int", 1, 2, 2)
    ensures At(BOUNDS, "long-uint", 1, 4, 4)
    ensures At(BOUNDS, "method-id", 1, 2, 2)
    ensures At(BOUNDS, "reply-text", 1, 0, 4)
    ensures At(BOUNDS, "frame-max", 2, 4, 4)
    ensures At(BOUNDS, "reply-code", 2, 2, 2)
  {
    hide BOUNDS, UPTO6, UPTO8, UPTO13, UPTO17, LONGER;
    Kept();
  }

  lemma Upto13At()
    ensures At(BOUNDS, "m11-method-id", 0, 2, 2)
    ensures At(BOUNDS, "m31-method-id", 0, 2, 2)
    ensures At(BOUNDS, "m40-method-id", 0, 2, 2)
    ensures At(BOUNDS, "m50-method-id", 0, 2, 2)
    ensures At(BOUNDS, "m51-method-id", 0, 2, 2)
    ensures At(BOUNDS, "virtual-host", 0, 0, 2)
    ensures At(BOUNDS, "payload-size", 2, 4, 4)
    ensures At(BOUNDS, "channel-max", 2, 2, 2)
    ensures At(BOUNDS, "method-frame", 9, 12, 164)
  {
    hide BOUNDS, UPTO6, UPTO8, UPTO10, UPTO17, LONGER;
    Kept();
  }

  lemma Upto17At()
    ensures At(BOUNDS, "message-length", 0, 0, 4)
    ensures At(BOUNDS, "client-properties", 1, 2, 6)
    ensures At(BOUNDS, "m50-class-id-val", 1, 2, 2)
    ensures At(BOUNDS, "heartbeat-time", 2, 2, 2)
    ensures At(BOUNDS, "m50-method-id-val", 2, 2, 2)
    ensures At(BOUNDS, "frame-properties", 3, 6, 6)
    ensures At(BOUNDS, "method-properties", 7, 0, 152)
    ensures At(BOUNDS, "method-payload", 8, 4, 156)
  {
    hide BOUNDS, UPTO6, UPTO8, UPTO10, UPTO13, LONGER;
    Kept();
  }

  lemma LongerAt()
    ensures At(BOUNDS, "client-properties-payload", 0, 2, 2)
    ensures At(BOUNDS, "client-properties-length", 0, 0, 4)
    ensures At(BOUNDS, "m51-method-properties", 0, 0, 0)
    ensures At(BOUNDS, "m40-method-properties", 1, 2, 4)
    ensures At(BOUNDS, "m31-method-properties", 3, 8, 8)
    ensures At(BOUNDS, "m50-method-properties", 3, 6, 10)
    ensures At(BOUNDS, "m11-method-properties", 6, 18, 152)
  {
    hide BOUNDS, UPTO6, UPTO8, UPTO10, UPTO13, UPTO17;
    Kept();
  }

  lemma StringsNotThere()
    ensures "short-string" !in UPTO13 && "long-string" !in UPTO13
  {
  }

  lemma StringsUnbounded()
    ensures "short-string" !in BOUNDS && "long-string" !in BOUNDS
  {
    hide BOUNDS, UPTO6, UPTO8, UPTO10, UPTO13, UPTO17, LONGER;
    Kept();
    Upto6Lengths();
    Upto8Lengths();
    Upto10Lengths();
    Upto17Lengths();
    LongerLengths();
    StringsNotThere();
  }

  /** No bounded rule is one that setup_connection_env rewrites. */
  lemma BoundedOrdinary(n: string)
    requires n in BOUNDS
    ensures !Special(n)
  {
    hide BOUNDS, Plain;
    StringsUnbounded();
    NamesPlain();
    PlainOfNew("short-string");
    PlainOfNew("long-string");
    NamesApart("short-string");
    NamesApart("long-string");
  }

  /** Names in none of the grammar files are looked up in vain. */
  lemma UndefinedLookup(c: Chain, n: string)
    requires IsBase(c) && !Special(n) && Unlisted(TagOf(n))
    ensures Lookup(c, n) == None
  {
    hide CONNECTION, PROTOCOL, TagOf, Unlisted, Special;
    UnlistedNowhere(n);
  }

  lemma Undefined(c: Chain, n: string)
    requires IsBase(c) && Unlisted(TagOf(n)) && n in BOUNDS && BOUNDS[n].lo == 0
    ensures Fit(c, BOUNDS, n)
  {
    hide IsBase, BOUNDS, TagOf, Unlisted, Special;
    BoundedOrdinary(n);
    UndefinedLookup(c, n);
  }

  lemma ShortstrUnlisted() ensures Unlisted(TagOf("shortstr")) { }
  lemma VirtualHostUnlisted() ensures Unlisted(TagOf("virtual-host")) { }
  lemma MessageLengthUnlisted() ensures Unlisted(TagOf("message-length")) { }
  lemma MethodPropertiesUnlisted() ensures Unlisted(TagOf("method-properties")) { }
  lemma ClientPropertiesLengthUnlisted() ensures Unlisted(TagOf("client-properties-length")) { }
  lemma M51MethodPropertiesUnlisted() ensures Unlisted(TagOf("m51-method-properties")) { }

  lemma Upto6Fit(c: Chain)
    requires IsBase(c)
    ensures FitAll(c, UPTO6)
  {
    hide IsBase, Defines, Fit, FitAll, BOUNDS, UPTO6, UPTO8, UPTO10, UPTO13, UPTO17, LONGER, Special, LIFE_CYCLE,
        COMMON, START_OK, TUNE_OK, OPEN_CLOSE, PLAIN, CONTENT, CORE, FIELDS, SCALARS, FRAMES;
    Upto6At();
    Upto13At();
    OCTET(c);
    IntervalFits(c, BOUNDS, "OCTET", [0x00], [0xFF]);
    UTF0(c);
    IntervalFits(c, BOUNDS, "UTF0", [0x80], [0xBF]);
    UTF1(c);
    IntervalFits(c, BOUNDS, "UTF1", [0x01], [0x7F]);
    Locale(c);
    TwoFit(c, BOUNDS, "locale", Dec([5]), Hex([0x65, 0x6E, 0x5F, 0x55, 0x53]));
    UTF2(c);
    TwoOctetsFit(c, BOUNDS, "UTF2", HexTo([0xC2], [0xDF]), "UTF0");
    UTF3(c);
    ThreeOctetsFit(c, BOUNDS, "UTF3", "UTF0");
    UTF4(c);
    FourOctetsFit(c, BOUNDS, "UTF4", "UTF0");
    SAFE(c);
    FourWaysFit(c, BOUNDS, "SAFE", "UTF1", "UTF2", "UTF3", "UTF4");
    Passwd(c);
    RepeatedFits(c, BOUNDS, "passwd", "SAFE");
    Method(c);
    AliasFits(c, BOUNDS, "method", "method-frame");
    Upto6Covered(c);
  }

  lemma Upto6Covered(c: Chain)
    requires Fit(c, BOUNDS, "OCTET")
    requires Fit(c, BOUNDS, "UTF0")
    requires Fit(c, BOUNDS, "UTF1")
    requires Fit(c, BOUNDS, "locale")
    requires Fit(c, BOUNDS, "UTF2")
    requires Fit(c, BOUNDS, "UTF3")
    requires Fit(c, BOUNDS, "UTF4")
    requires Fit(c, BOUNDS, "SAFE")
    requires Fit(c, BOUNDS, "passwd")
    requires Fit(c, BOUNDS, "method")
    ensures FitAll(c, UPTO6)
  {
    hide Fit, BOUNDS;
  }

  lemma Upto8Fit(c: Chain)
    requires IsBase(c)
    ensures FitAll(c, UPTO8)
  {
    hide IsBase, Defines, Fit, FitAll, BOUNDS, UPTO6, UPTO8, UPTO10, UPTO13, UPTO17, LONGER, Special, LIFE_CYCLE,
        COMMON, START_OK, TUNE_OK, OPEN_CLOSE, PLAIN, CONTENT, CORE, FIELDS, SCALARS, FRAMES;
    Upto6At();
    Upto8At();
    Upto17At();
    Channel(c);
    SymbolFits(c, BOUNDS, "channel", Hex([0x00, 0x00]));
    ClassId(c);
    SymbolFits(c, BOUNDS, "class-id", Hex([0x00, 0x0A]));
    UTF8NUL(c);
    SymbolFits(c, BOUNDS, "UTF8NUL", Hex([0x00]));
    ShortstrUnlisted();
    Undefined(c, "shortstr");
    LongInt(c);
    CopiesFits(c, BOUNDS, "long-int", 4, "OCTET");
    Authcid(c);
    RepeatedFits(c, BOUNDS, "authcid", "SAFE");
    Message(c);
    FiveFit(c, BOUNDS, "message", Bracketed("authzid"), Named("UTF8NUL"), Named("authcid"), Named("UTF8NUL"),
        Named("passwd"));
    Response(c);
    TwoFit(c, BOUNDS, "response", Named("message-length"), Named("message"));
    Upto8Covered(c);
  }

  lemma Upto8Covered(c: Chain)
    requires Fit(c, BOUNDS, "channel")
    requires Fit(c, BOUNDS, "class-id")
    requires Fit(c, BOUNDS, "UTF8NUL")
    requires Fit(c, BOUNDS, "shortstr")
    requires Fit(c, BOUNDS, "long-int")
    requires Fit(c, BOUNDS, "authcid")
    requires Fit(c, BOUNDS, "message")
    requires Fit(c, BOUNDS, "response")
    ensures FitAll(c, UPTO8)
  {
    hide Fit, BOUNDS;
  }

  lemma Upto10Fit(c: Chain)
    requires IsBase(c)
    ensures FitAll(c, UPTO10)
  {
    hide IsBase, Defines, Fit, FitAll, BOUNDS, UPTO6, UPTO8, UPTO10, UPTO13, UPTO17, LONGER, Special, LIFE_CYCLE,
        COMMON, START_OK, TUNE_OK, OPEN_CLOSE, PLAIN, CONTENT, CORE, FIELDS, SCALARS, FRAMES;
    Upto6At();
    Upto8At();
    Upto10At();
    FrameEnd(c);
    SymbolFits(c, BOUNDS, "frame-end", Hex([0xCE]));
    Mechanism(c);
    TwoFit(c, BOUNDS, "mechanism", Dec([5]), Hex([0x50, 0x4C, 0x41, 0x49, 0x4E]));
    ShortInt(c);
    CopiesFits(c, BOUNDS, "short-int", 2, "OCTET");
    LongUint(c);
    CopiesFits(c, BOUNDS, "long-uint", 4, "OCTET");
    MethodId(c);
    IntervalFits(c, BOUNDS, "method-id", [0x00, 0x01], [0xFF, 0xFF]);
    ReplyText(c);
    AliasFits(c, BOUNDS, "reply-text", "shortstr");
    FrameMax(c);
    AliasFits(c, BOUNDS, "frame-max", "long-int");
    ReplyCode(c);
    AliasFits(c, BOUNDS, "reply-code", "short-int");
    Upto10Covered(c);
  }

  lemma Upto10Covered(c: Chain)
    requires Fit(c, BOUNDS, "frame-end")
    requires Fit(c, BOUNDS, "mechanism")
    requires Fit(c, BOUNDS, "short-int")
    requires Fit(c, BOUNDS, "long-uint")
    requires Fit(c, BOUNDS, "method-id")
    requires Fit(c, BOUNDS, "reply-text")
    requires Fit(c, BOUNDS, "frame-max")
    requires Fit(c, BOUNDS, "reply-code")
    ensures FitAll(c, UPTO10)
  {
    hide Fit, BOUNDS;
  }

  lemma Upto13Fit(c: Chain)
    requires IsBase(c)
    ensures FitAll(c, UPTO13)
  {
    hide IsBase, Defines, Fit, FitAll, BOUNDS, UPTO6, UPTO8, UPTO10, UPTO13, UPTO17, LONGER, Special, LIFE_CYCLE,
        COMMON, START_OK, TUNE_OK, OPEN_CLOSE, PLAIN, CONTENT, CORE, FIELDS, SCALARS, FRAMES;
    Upto10At();
    Upto13At();
    Upto17At();
    M11MethodId(c);
    SymbolFits(c, BOUNDS, "m11-method-id", Hex([0x00, 0x0B]));
    M31MethodId(c);
    SymbolFits(c, BOUNDS, "m31-method-id", Hex([0x00, 0x1F]));
    M40MethodId(c);
    SymbolFits(c, BOUNDS, "m40-method-id", Hex([0x00, 0x28]));
    M50MethodId(c);
    SymbolFits(c, BOUNDS, "m50-method-id", Hex([0x00, 0x32]));
    M51MethodId(c);
    SymbolFits(c, BOUNDS, "m51-method-id", Hex([0x00, 0x33]));
    VirtualHostUnlisted();
    Undefined(c, "virtual-host");
    PayloadSize(c);
    AliasFits(c, BOUNDS, "payload-size", "long-uint");
    ChannelMax(c);
    AliasFits(c, BOUNDS, "channel-max", "short-int");
    MethodFrame(c);
    FourFit(c, BOUNDS, "method-frame", Dec([1]), Named("frame-properties"), Named("method-payload"),
        Named("frame-end"));
    Upto13Covered(c);
  }

  lemma Upto13Covered(c: Chain)
    requires Fit(c, BOUNDS, "m11-method-id")
    requires Fit(c, BOUNDS, "m31-method-id")
    requires Fit(c, BOUNDS, "m40-method-id")
    requires Fit(c, BOUNDS, "m50-method-id")
    requires Fit(c, BOUNDS, "m51-method-id")
    requires Fit(c, BOUNDS, "virtual-host")
    requires Fit(c, BOUNDS, "payload-size")
    requires Fit(c, BOUNDS, "channel-max")
    requires Fit(c, BOUNDS, "method-frame")
    ensures FitAll(c, UPTO13)
  {
    hide Fit, BOUNDS;
  }

  lemma Upto17Fit(c: Chain)
    requires IsBase(c)
    ensures FitAll(c, UPTO17)
  {
    hide IsBase, Defines, Fit, FitAll, BOUNDS, UPTO6, UPTO8, UPTO10, UPTO13, UPTO17, LONGER, Special, LIFE_CYCLE,
        COMMON, START_OK, TUNE_OK, OPEN_CLOSE, PLAIN, CONTENT, CORE, FIELDS, SCALARS, FRAMES;
    Upto8At();
    Upto10At();
    Upto13At();
    Upto17At();
    LongerAt();
    MessageLengthUnlisted();
    Undefined(c, "message-length");
    ClientProperties(c);
    TwoFit(c, BOUNDS, "client-properties", Named("client-properties-length"), Named("client-properties-payload"));
    M50ClassIdVal(c);
    AliasFits(c, BOUNDS, "m50-class-id-val", "class-id");
    HeartbeatTime(c);
    AliasFits(c, BOUNDS, "heartbeat-time", "short-int");
    M50MethodIdVal(c);
    AliasFits(c, BOUNDS, "m50-method-id-val", "method-id");
    FrameProperties(c);
    TwoFit(c, BOUNDS, "frame-properties", Named("channel"), Named("payload-size"));
    MethodPropertiesUnlisted();
    Undefined(c, "method-properties");
    MethodPayload(c);
    ThreeFit(c, BOUNDS, "method-payload", Named("class-id"), Named("method-id"), Named("method-properties"));
    Upto17Covered(c);
  }

  lemma Upto17Covered(c: Chain)
    requires Fit(c, BOUNDS, "message-length")
    requires Fit(c, BOUNDS, "client-properties")
    requires Fit(c, BOUNDS, "m50-class-id-val")
    requires Fit(c, BOUNDS, "heartbeat-time")
    requires Fit(c, BOUNDS, "m50-method-id-val")
    requires Fit(c, BOUNDS, "frame-properties")
    requires Fit(c, BOUNDS, "method-properties")
    requires Fit(c, BOUNDS, "method-payload")
    ensures FitAll(c, UPTO17)
  {
    hide Fit, BOUNDS;
  }

  lemma LongerFit(c: Chain)
    requires IsBase(c)
    ensures FitAll(c, LONGER)
  {
    hide IsBase, Defines, Fit, FitAll, BOUNDS, UPTO6, UPTO8, UPTO10, UPTO13, UPTO17, LONGER, Special, LIFE_CYCLE,
        COMMON, START_OK, TUNE_OK, OPEN_CLOSE, PLAIN, CONTENT, CORE, FIELDS, SCALARS, FRAMES;
    Upto6At();
    Upto8At();
    Upto10At();
    Upto13At();
    Upto17At();
    LongerAt();
    ClientPropertiesPayload(c);
    SymbolFits(c, BOUNDS, "client-properties-payload", Hex([0x00, 0x56]));
    ClientPropertiesLengthUnlisted();
    Undefined(c, "client-properties-length");
    M51MethodPropertiesUnlisted();
    Undefined(c, "m51-method-properties");
    M40MethodProperties(c);
    ThreeFit(c, BOUNDS, "m40-method-properties", Named("virtual-host"), Dec([0]), Dec([0]));
    M31MethodProperties(c);
    ThreeFit(c, BOUNDS, "m31-method-properties", Named("channel-max"), Named("frame-max"), Named("heartbeat-time"));
    M50MethodProperties(c);
    FourFit(c, BOUNDS, "m50-method-properties", Named("reply-code"), Named("reply-text"), Named("m50-class-id-val"),
        Named("m50-method-id-val"));
    M11MethodProperties(c);
    FourFit(c, BOUNDS, "m11-method-properties", Named("client-properties"), Named("mechanism"), Named("response"),
        Named("locale"));
    LongerCovered(c);
  }

  lemma LongerCovered(c: Chain)
    requires Fit(c, BOUNDS, "client-properties-payload")
    requires Fit(c, BOUNDS, "client-properties-length")
    requires Fit(c, BOUNDS, "m51-method-properties")
    requires Fit(c, BOUNDS, "m40-method-properties")
    requires Fit(c, BOUNDS, "m31-method-properties")
    requires Fit(c, BOUNDS, "m50-method-properties")
    requires Fit(c, BOUNDS, "m11-method-properties")
    ensures FitAll(c, LONGER)
  {
    hide Fit, BOUNDS;
  }

  lemma NamesPlain()
    ensures PlainNames(BOUNDS)
  {
    hide BOUNDS, UPTO6, UPTO8, UPTO10, UPTO13, UPTO17, LONGER;
    Kept();
    ShorterUnmarked();
    Upto13Unmarked();
    Upto17Unmarked();
    LongerUnmarked();
    forall n | n in BOUNDS ensures Plain(n) == n {
      Unprefixed(n);
    }
  }

  lemma Unprefixed(n: string)
    requires |n| >= 13 ==> n[1] != 'u'
    ensures Plain(n) == n
  {
    if |n| >= 13 { assert n[..13][1] == n[1]; }
  }

  predicate Unmarked(part: Bounds) { forall n | n in part :: |n| >= 13 ==> n[1] != 'u' }

  lemma ShorterUnmarked()
    ensures Unmarked(UPTO6) && Unmarked(UPTO8) && Unmarked(UPTO10)
  {
    hide UPTO6, UPTO8, UPTO10;
    Upto6Lengths();
    Upto8Lengths();
    Upto10Lengths();
  }

  lemma Upto13Unmarked() ensures Unmarked(UPTO13) { }
  lemma Upto17Unmarked() ensures Unmarked(UPTO17) { }
  lemma LongerUnmarked() ensures Unmarked(LONGER) { }

  /** At every chaos level the builders' base environment is stratified and bounded: no rule they
      reach can recurse, crash, or outgrow its bound. */
  lemma BaseStratified(level: Level)
    ensures Stratified(BaseChain(level), BOUNDS)
  {
    var c := BaseChain(level);
    hide *;
    BaseModels(level);
    Upto6Fit(c);
    Upto8Fit(c);
    Upto10Fit(c);
    Upto13Fit(c);
    Upto17Fit(c);
    LongerFit(c);
    Kept();
    NamesPlain();
    Collect(c);
  }

  lemma Collect(c: Chain)
    requires FitAll(c, UPTO6) && FitAll(c, UPTO8) && FitAll(c, UPTO10) && FitAll(c, UPTO13)
    requires FitAll(c, UPTO17) && FitAll(c, LONGER)
    requires forall n | n in BOUNDS :: InSomeList(n)
    requires PlainNames(BOUNDS)
    ensures Stratified(c, BOUNDS)
  {
    hide BOUNDS, UPTO6, UPTO8, UPTO10, UPTO13, UPTO17, LONGER, Lookup, FitsEntry;
    forall n | n in BOUNDS ensures Fit(c, BOUNDS, n) { }
  }
}
