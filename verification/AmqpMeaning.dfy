/** What the rules the builders reach can decode to, at every chaos level: the shape of a frame and
    of a PLAIN message, on top of the length bounds. Stated as one meaning that every unfolding
    stays inside, so that overrides can carry it along. */
module AmqpMeaning {
  import opened Octets
  import opened Abnf
  import opened AbnfPrint
  import opened Language
  import opened Termination
  import opened Override
  import opened Strata
  import opened AmqpRules
  import opened AmqpGrammar
  import opened AmqpBounds
  import opened PlainText

  /** 01 00 00, four octets, a payload of class 10, CE: what every builder sends. */
  predicate FrameShape(b: seq<byte>)
  {
    12 <= |b| <= 164 && b[..3] == [1, 0, 0] && b[7..9] == [0, 10] && b[|b| - 1] == 0xCE
  }

  predicate FrameSound(n: string, b: seq<byte>)
  {
    && (n == "channel" ==> b == [0, 0])
    && (n == "class-id" ==> b == [0, 10])
    && (n == "frame-end" ==> b == [0xCE])
    && (n == "frame-properties" ==> |b| == 6 && b[..2] == [0, 0])
    && (n == "method-payload" ==> |b| >= 4 && b[..2] == [0, 10])
    && (n == "method-frame" ==> FrameShape(b))
    && (n == "method" ==> FrameShape(b))
  }

  predicate OneTail(b: seq<byte>) { |b| == 1 && Tail(b[0]) }

  /** A UTF-8 character other than NUL (SAFE of RFC 4616). */
  predicate SafeChar(b: seq<byte>) { Utf8Char(b) && NulFree(b) }

  ghost predicate TextSound(n: string, b: seq<byte>)
  {
    && (n == "UTF0" ==> OneTail(b))
    && (n == "UTF1" ==> SafeChar(b))
    && (n == "UTF2" ==> SafeChar(b))
    && (n == "UTF3" ==> SafeChar(b))
    && (n == "UTF4" ==> SafeChar(b))
    && (n == "SAFE" ==> SafeChar(b))
    && (n == "UTF8NUL" ==> b == [0])
    && (n == "authcid" ==> Credential(b))
    && (n == "passwd" ==> Credential(b))
    && (n == "message" ==> PlainMessage(b))
  }

  ghost function Meant(): Meaning
  {
    (n, b) => Sized(BOUNDS)(n, b) && FrameSound(Plain(n), b) && TextSound(Plain(n), b)
  }

  /* --- Taking alternatives apart --- */

  lemma OnlyAlternative(c: Chain, I: Meaning, n: string, ps: seq<Piece>, b: seq<byte>)
    requires Defines(c, n, [ps]) && InBody(c, I, n, b)
    ensures InElements(I, ElementsOf(ps), b)
  {
  }

  lemma SomeAlternative(c: Chain, I: Meaning, n: string, alts: seq<seq<Piece>>, b: seq<byte>) returns (i: nat)
    requires Defines(c, n, alts) && InBody(c, I, n, b)
    ensures i < |alts| && InElements(I, ElementsOf(alts[i]), b)
  {
    match Lookup(c, n).value
    case Text(_) => i := 0;
    case Choice(texts) => i :| 0 <= i < |texts| && InElements(I, Elements(texts[i]), b);
  }

  lemma Cut(I: Meaning, p: Piece, ps: seq<Piece>, b: seq<byte>) returns (x: seq<byte>, y: seq<byte>)
    requires InElements(I, ElementsOf([p] + ps), b)
    ensures b == x + y && InElement(I, ElementOf(p), x) && InElements(I, ElementsOf(ps), y)
  {
    var es := ElementsOf([p] + ps);
    assert es[1..] == ElementsOf(ps);
    var k :| 0 <= k <= |b| && InElement(I, es[0], b[..k]) && InElements(I, es[1..], b[k..]);
    x, y := b[..k], b[k..];
  }

  lemma Alone(I: Meaning, p: Piece, b: seq<byte>)
    requires InElements(I, ElementsOf([p]), b)
    ensures InElement(I, ElementOf(p), b)
  {
    assert [p] == [p] + [];
    var x, y := Cut(I, p, [], b);
    assert ElementsOf([]) == [] && y == [] && x == b;
  }

  lemma Cut2(I: Meaning, p: Piece, q: Piece, b: seq<byte>) returns (x: seq<byte>, y: seq<byte>)
    requires InElements(I, ElementsOf([p, q]), b)
    ensures b == x + y && InElement(I, ElementOf(p), x) && InElement(I, ElementOf(q), y)
  {
    assert [p, q] == [p] + [q];
    x, y := Cut(I, p, [q], b);
    Alone(I, q, y);
  }

  lemma Cut3(I: Meaning, p: Piece, q: Piece, r: Piece, b: seq<byte>) returns (x: seq<byte>, y: seq<byte>, z: seq<byte>)
    requires InElements(I, ElementsOf([p, q, r]), b)
    ensures b == x + y + z
    ensures InElement(I, ElementOf(p), x) && InElement(I, ElementOf(q), y) && InElement(I, ElementOf(r), z)
  {
    hide *;
    assert [p, q, r] == [p] + [q, r];
    var tail;
    x, tail := Cut(I, p, [q, r], b);
    y, z := Cut2(I, q, r, tail);
  }

  lemma Cut4(I: Meaning, p: Piece, q: Piece, r: Piece, s: Piece, b: seq<byte>)
    returns (w: seq<byte>, x: seq<byte>, y: seq<byte>, z: seq<byte>)
    requires InElements(I, ElementsOf([p, q, r, s]), b)
    ensures b == w + x + y + z
    ensures InElement(I, ElementOf(p), w) && InElement(I, ElementOf(q), x)
    ensures InElement(I, ElementOf(r), y) && InElement(I, ElementOf(s), z)
  {
    hide *;
    assert [p, q, r, s] == [p] + [q, r, s];
    var tail;
    w, tail := Cut(I, p, [q, r, s], b);
    x, y, z := Cut3(I, q, r, s, tail);
    assert b == w + (x + y + z);
  }

  lemma Cut5(I: Meaning, p: Piece, q: Piece, r: Piece, s: Piece, t: Piece, b: seq<byte>)
    returns (v: seq<byte>, w: seq<byte>, x: seq<byte>, y: seq<byte>, z: seq<byte>)
    requires InElements(I, ElementsOf([p, q, r, s, t]), b)
    ensures b == v + w + x + y + z
    ensures InElement(I, ElementOf(p), v) && InElement(I, ElementOf(q), w)
    ensures InElement(I, ElementOf(r), x) && InElement(I, ElementOf(s), y) && InElement(I, ElementOf(t), z)
  {
    hide *;
    assert [p, q, r, s, t] == [p] + [q, r, s, t];
    var tail;
    v, tail := Cut(I, p, [q, r, s, t], b);
    w, x, y, z := Cut4(I, q, r, s, t, tail);
    assert b == v + (w + x + y + z);
  }

  lemma SymbolMeans(c: Chain, I: Meaning, n: string, p: Piece, b: seq<byte>)
    requires Defines(c, n, [[p]]) && p.Symbol? && InBody(c, I, n, b)
    ensures b == p.octets
  {
    OnlyAlternative(c, I, n, [p], b);
    Alone(I, p, b);
  }

  lemma WholeSymbol(c: Chain, n: string, octets: seq<byte>, b: seq<byte>)
    requires Defines(c, n, [[Hex(octets)]]) && Whole(c)(n, b)
    ensures b == octets
  {
    hide Defines, InBody;
    Unfolded(c, n, b);
    SymbolMeans(c, Whole(c), n, Hex(octets), b);
  }

  lemma WholeAlias(c: Chain, n: string, x: string, b: seq<byte>)
    requires Defines(c, n, [[Named(x)]]) && Whole(c)(n, b)
    ensures Whole(c)(x, b)
  {
    hide Defines, InBody;
    Unfolded(c, n, b);
    AliasMeans(c, Whole(c), n, x, b);
  }

  lemma OctetRangeMeans(I: Meaning, p: Piece, b: seq<byte>)
    requires OctetRange(p) && InElement(I, ElementOf(p), b)
    ensures |b| == 1 && p.lo[0] <= b[0] < p.hi[0]
  {
    OctetRangeWidth(p);
    var lo, hi := Value(p.lo), Value(p.hi);
    var v: nat :| RangeAllows(lo, hi, v) && b == RangeOctets(hi, v);
    assert BE(v, 1) == BE(v / RADIX, 0) + [v % RADIX];
  }

  /* --- Frames --- */

  lemma FramePropertiesShape(c: Chain, I: Meaning, n: string, x: string, y: string, b: seq<byte>)
    requires Defines(c, n, [[Named(x), Named(y)]]) && InBody(c, I, n, b)
    requires forall d | I(x, d) :: d == [0, 0]
    requires forall d | I(y, d) :: |d| == 4
    ensures |b| == 6 && b[..2] == [0, 0]
  {
    OnlyAlternative(c, I, n, [Named(x), Named(y)], b);
    var d, e := Cut2(I, Named(x), Named(y), b);
  }

  lemma PayloadShape(c: Chain, I: Meaning, n: string, x: string, y: string, z: string, b: seq<byte>)
    requires Defines(c, n, [[Named(x), Named(y), Named(z)]]) && InBody(c, I, n, b)
    requires forall d | I(x, d) :: d == [0, 10]
    requires forall d | I(y, d) :: |d| == 2
    ensures |b| >= 4 && b[..2] == [0, 10]
  {
    OnlyAlternative(c, I, n, [Named(x), Named(y), Named(z)], b);
    var d, e, f := Cut3(I, Named(x), Named(y), Named(z), b);
  }

  lemma MethodFrameShape(c: Chain, I: Meaning, n: string, x: string, y: string, z: string, b: seq<byte>)
    requires Defines(c, n, [[Dec([1]), Named(x), Named(y), Named(z)]]) && InBody(c, I, n, b)
    requires forall d | I(x, d) :: |d| == 6 && d[..2] == [0, 0]
    requires forall d | I(y, d) :: 4 <= |d| <= 156 && d[..2] == [0, 10]
    requires forall d | I(z, d) :: d == [0xCE]
    ensures FrameShape(b)
  {
    OnlyAlternative(c, I, n, [Dec([1]), Named(x), Named(y), Named(z)], b);
    var d, e, f, g := Cut4(I, Dec([1]), Named(x), Named(y), Named(z), b);
    assert d == [1] && I(x, e) && I(y, f) && I(z, g);
    Laid(b, e, f);
  }

  lemma Laid(b: seq<byte>, e: seq<byte>, f: seq<byte>)
    requires |e| == 6 && e[..2] == [0, 0] && 4 <= |f| <= 156 && f[..2] == [0, 10] && b == [1] + e + f + [0xCE]
    ensures FrameShape(b)
  {
    assert e[0] == e[..2][0] && e[1] == e[..2][1];
    assert f[0] == f[..2][0] && f[1] == f[..2][1];
    assert b[..3] == [1, e[0], e[1]];
    assert b[7..9] == [f[0], f[1]];
  }

  lemma AliasMeans(c: Chain, I: Meaning, n: string, x: string, b: seq<byte>)
    requires Defines(c, n, [[Named(x)]]) && InBody(c, I, n, b)
    ensures I(x, b)
  {
    OnlyAlternative(c, I, n, [Named(x)], b);
    Alone(I, Named(x), b);
  }

  /* --- Characters --- */

  ghost predicate Tails(I: Meaning, x: string) { forall d | I(x, d) :: OneTail(d) }

  lemma {:induction false} TimesTails(I: Meaning, x: string, k: nat, b: seq<byte>)
    requires Tails(I, x) && InTimes(I, Rule(x), k, b)
    ensures |b| == k && forall i | 0 <= i < k :: Tail(b[i])
  {
    if k > 0 {
      var j :| 0 <= j <= |b| && InElement(I, Rule(x), b[..j]) && InTimes(I, Rule(x), k - 1, b[j..]);
      TimesTails(I, x, k - 1, b[j..]);
      assert OneTail(b[..j]) && b == b[..1] + b[1..];
    }
  }

  lemma CopiesTails(I: Meaning, x: string, k: nat, b: seq<byte>)
    requires Tails(I, x) && InElement(I, ElementOf(Exactly(k, Named(x))), b)
    ensures |b| == k && forall i | 0 <= i < k :: Tail(b[i])
  {
    assert ElementOf(Exactly(k, Named(x))) == Repeat(k, k, Rule(x));
    var n: nat :| CountAllows(k, k, n) && InTimes(I, Rule(x), n, b);
    TimesTails(I, x, k, b);
  }

  lemma Utf1Means(c: Chain, I: Meaning, n: string, b: seq<byte>)
    requires Defines(c, n, [[HexTo([0x01], [0x7F])]]) && InBody(c, I, n, b)
    ensures SafeChar(b)
  {
    var p := HexTo([0x01], [0x7F]);
    OnlyAlternative(c, I, n, [p], b);
    Alone(I, p, b);
    OctetRangeMeans(I, p, b);
  }

  lemma TailMeans(c: Chain, I: Meaning, n: string, b: seq<byte>)
    requires Defines(c, n, [[HexTo([0x80], [0xBF])]]) && InBody(c, I, n, b)
    ensures OneTail(b)
  {
    var p := HexTo([0x80], [0xBF]);
    OnlyAlternative(c, I, n, [p], b);
    Alone(I, p, b);
    OctetRangeMeans(I, p, b);
  }

  /** A range of octets, then `k` tails. */
  lemma RangeThenTails(I: Meaning, p: Piece, x: string, k: nat, b: seq<byte>)
    requires OctetRange(p) && Tails(I, x) && InElements(I, ElementsOf([p, Exactly(k, Named(x))]), b)
    ensures |b| == 1 + k && p.lo[0] <= b[0] < p.hi[0] && forall i | 1 <= i <= k :: Tail(b[i])
  {
    var d, e := Cut2(I, p, Exactly(k, Named(x)), b);
    OctetRangeMeans(I, p, d);
    CopiesTails(I, x, k, e);
  }

  lemma RangeThenTail(I: Meaning, p: Piece, x: string, b: seq<byte>)
    requires OctetRange(p) && Tails(I, x) && InElements(I, ElementsOf([p, Named(x)]), b)
    ensures |b| == 2 && p.lo[0] <= b[0] < p.hi[0] && Tail(b[1])
  {
    var d, e := Cut2(I, p, Named(x), b);
    OctetRangeMeans(I, p, d);
    assert I(x, e);
  }

  /** A fixed octet, a range of octets, then `k` tails. */
  lemma OctetThenRange(I: Meaning, f: byte, p: Piece, q: Piece, x: string, k: nat, b: seq<byte>)
    requires OctetRange(p) && Tails(I, x) && (q == Exactly(k, Named(x)) || (k == 1 && q == Named(x)))
    requires InElements(I, ElementsOf([Hex([f]), p, q]), b)
    ensures |b| == 2 + k && b[0] == f && p.lo[0] <= b[1] < p.hi[0] && forall i | 2 <= i < 2 + k :: Tail(b[i])
  {
    var d, e, g := Cut3(I, Hex([f]), p, q, b);
    OctetRangeMeans(I, p, e);
    if q == Named(x) { assert I(x, g); } else { CopiesTails(I, x, k, g); }
    assert b == [f] + e + g;
  }

  lemma Utf2Means(c: Chain, I: Meaning, n: string, x: string, b: seq<byte>)
    requires Defines(c, n, [[HexTo([0xC2], [0xDF]), Named(x)]]) && InBody(c, I, n, b) && Tails(I, x)
    ensures SafeChar(b)
  {
    hide InElements, InElement, ElementsOf, ElementOf, Tails, Defines, InBody;
    OnlyAlternative(c, I, n, [HexTo([0xC2], [0xDF]), Named(x)], b);
    RangeThenTail(I, HexTo([0xC2], [0xDF]), x, b);
  }

  /** E1..EC or EE, then two tails. */
  lemma Three(I: Meaning, lo: byte, hi: byte, x: string, b: seq<byte>)
    requires 0xE1 <= lo < hi <= 0xEF && (hi <= 0xED || lo >= 0xEE) && Tails(I, x)
    requires InElements(I, ElementsOf([HexTo([lo], [hi]), Exactly(2, Named(x))]), b)
    ensures SafeChar(b)
  {
    hide InElements, InElement, ElementsOf, ElementOf, Tails;
    RangeThenTails(I, HexTo([lo], [hi]), x, 2, b);
  }

  /** E0 or ED, a second octet in its narrower range, then one tail. */
  lemma ThreeEdge(I: Meaning, f: byte, lo: byte, hi: byte, x: string, b: seq<byte>)
    requires ((f == 0xE0 && lo == 0xA0 && hi == 0xBF) || (f == 0xED && lo == 0x80 && hi == 0x9F)) && Tails(I, x)
    requires InElements(I, ElementsOf([Hex([f]), HexTo([lo], [hi]), Named(x)]), b)
    ensures SafeChar(b)
  {
    hide InElements, InElement, ElementsOf, ElementOf, Tails;
    OctetThenRange(I, f, HexTo([lo], [hi]), Named(x), x, 1, b);
  }

  lemma Four(I: Meaning, x: string, b: seq<byte>)
    requires InElements(I, ElementsOf([HexTo([0xF1], [0xF3]), Exactly(3, Named(x))]), b) && Tails(I, x)
    ensures SafeChar(b)
  {
    hide InElements, InElement, ElementsOf, ElementOf, Tails;
    RangeThenTails(I, HexTo([0xF1], [0xF3]), x, 3, b);
  }

  lemma FourEdge(I: Meaning, f: byte, lo: byte, hi: byte, x: string, b: seq<byte>)
    requires ((f == 0xF0 && lo == 0x90 && hi == 0xBF) || (f == 0xF4 && lo == 0x80 && hi == 0x8F)) && Tails(I, x)
    requires InElements(I, ElementsOf([Hex([f]), HexTo([lo], [hi]), Exactly(2, Named(x))]), b)
    ensures SafeChar(b)
  {
    hide InElements, InElement, ElementsOf, ElementOf, Tails;
    OctetThenRange(I, f, HexTo([lo], [hi]), Exactly(2, Named(x)), x, 2, b);
  }

  lemma Utf3Means(c: Chain, I: Meaning, n: string, x: string, b: seq<byte>)
    requires Defines(c, n, Utf3Rule(x)) && InBody(c, I, n, b) && Tails(I, x)
    ensures SafeChar(b)
  {
    var alts := Utf3Rule(x);
    assert alts[0] == [Hex([0xE0]), HexTo([0xA0], [0xBF]), Named(x)];
    assert alts[1] == [HexTo([0xE1], [0xEC]), Exactly(2, Named(x))];
    assert alts[2] == [Hex([0xED]), HexTo([0x80], [0x9F]), Named(x)];
    assert alts[3] == [HexTo([0xEE], [0xEF]), Exactly(2, Named(x))];
    assert |alts| == 4;
    hide *;
    var i := SomeAlternative(c, I, n, alts, b);
    if i == 0 { ThreeEdge(I, 0xE0, 0xA0, 0xBF, x, b); }
    else if i == 1 { Three(I, 0xE1, 0xEC, x, b); }
    else if i == 2 { ThreeEdge(I, 0xED, 0x80, 0x9F, x, b); }
    else { Three(I, 0xEE, 0xEF, x, b); }
  }

  lemma Utf4Means(c: Chain, I: Meaning, n: string, x: string, b: seq<byte>)
    requires Defines(c, n, Utf4Rule(x)) && InBody(c, I, n, b) && Tails(I, x)
    ensures SafeChar(b)
  {
    var alts := Utf4Rule(x);
    assert alts[0] == [Hex([0xF0]), HexTo([0x90], [0xBF]), Exactly(2, Named(x))];
    assert alts[1] == [HexTo([0xF1], [0xF3]), Exactly(3, Named(x))];
    assert alts[2] == [Hex([0xF4]), HexTo([0x80], [0x8F]), Exactly(2, Named(x))];
    assert |alts| == 3;
    hide *;
    var i := SomeAlternative(c, I, n, alts, b);
    if i == 0 { FourEdge(I, 0xF0, 0x90, 0xBF, x, b); }
    else if i == 1 { Four(I, x, b); }
    else { FourEdge(I, 0xF4, 0x80, 0x8F, x, b); }
  }

  lemma SafeMeans(c: Chain, I: Meaning, n: string, w: string, x: string, y: string, z: string, b: seq<byte>)
    requires Defines(c, n, [[Named(w)], [Named(x)], [Named(y)], [Named(z)]]) && InBody(c, I, n, b)
    requires forall m, d | m in [w, x, y, z] && I(m, d) :: SafeChar(d)
    ensures SafeChar(b)
  {
    var alts := [[Named(w)], [Named(x)], [Named(y)], [Named(z)]];
    var i := SomeAlternative(c, I, n, alts, b);
    var m := [w, x, y, z][i];
    assert alts[i] == [Named(m)];
    Alone(I, Named(m), b);
  }

  /* --- Text and the message --- */

  lemma SafeCons(d: seq<byte>, e: seq<byte>)
    requires SafeChar(d) && Utf8(e) && NulFree(e)
    ensures Utf8(d + e) && NulFree(d + e)
  {
    hide Utf8, Utf8Char;
    Utf8Cons(d, e);
  }

  lemma {:induction false} TimesSafe(I: Meaning, x: string, n: nat, b: seq<byte>)
    requires (forall d | I(x, d) :: SafeChar(d)) && InTimes(I, Rule(x), n, b)
    ensures Utf8(b) && NulFree(b)
  {
    if n > 0 {
      var j :| 0 <= j <= |b| && InElement(I, Rule(x), b[..j]) && InTimes(I, Rule(x), n - 1, b[j..]);
      var d, e := b[..j], b[j..];
      assert b == d + e;
      TimesSafe(I, x, n - 1, e);
      SafeCons(d, e);
    }
  }

  lemma CredentialMeans(c: Chain, I: Meaning, n: string, x: string, b: seq<byte>)
    requires Defines(c, n, [[AtLeast(1, Named(x))]]) && InBody(c, I, n, b) && 1 <= |b| <= 64
    requires forall d | I(x, d) :: SafeChar(d)
    ensures Credential(b)
  {
    var p := AtLeast(1, Named(x));
    OnlyAlternative(c, I, n, [p], b);
    Alone(I, p, b);
    assert ElementOf(p) == Repeat(1, REPETITION_INFTY, Rule(x));
    var k: nat :| CountAllows(1, REPETITION_INFTY, k) && InTimes(I, Rule(x), k, b);
    TimesSafe(I, x, k, b);
  }

  lemma MessageMeans(c: Chain, I: Meaning, n: string, w: string, x: string, y: string, z: string, b: seq<byte>)
    requires Defines(c, n, [[Bracketed(w), Named(x), Named(y), Named(x), Named(z)]]) && InBody(c, I, n, b)
    requires forall d | I(x, d) :: d == [0]
    requires forall d | I(y, d) || I(z, d) :: Credential(d)
    ensures PlainMessage(b)
  {
    hide Credential, Defines, InBody;
    OnlyAlternative(c, I, n, [Bracketed(w), Named(x), Named(y), Named(x), Named(z)], b);
    var d, e, f, g, h := Cut5(I, Bracketed(w), Named(x), Named(y), Named(x), Named(z), b);
    assert d == [] && I(x, e) && I(y, f) && I(x, g) && I(z, h);
    assert b == AuthMessage(f, h);
  }

  /* --- What Meant says of each name --- */

  lemma PlainHere(n: string)
    requires n in BOUNDS
    ensures Plain(n) == n
  {
    hide BOUNDS, Plain;
    NamesPlain();
  }

  lemma MeantIs(n: string, d: seq<byte>)
    requires n in BOUNDS
    ensures Meant()(n, d) <==> BOUNDS[n].lo <= |d| <= BOUNDS[n].hi && FrameSound(n, d) && TextSound(n, d)
  {
    hide BOUNDS, FrameSound, TextSound, Plain;
    PlainHere(n);
    var B := BOUNDS;
    assert Sized(B)(n, d) <==> (Plain(n) in B ==> B[Plain(n)].lo <= |d| <= B[Plain(n)].hi);
    assert Meant()(n, d) <==> Sized(BOUNDS)(n, d) && FrameSound(Plain(n), d) && TextSound(Plain(n), d);
  }

  lemma MeantLength(n: string, rank: Stratum, lo: nat, hi: nat)
    requires At(BOUNDS, n, rank, lo, hi)
    ensures forall d | Meant()(n, d) :: lo <= |d| <= hi
  {
    hide BOUNDS, FrameSound, TextSound, Meant;
    forall d | Meant()(n, d) ensures lo <= |d| <= hi { MeantIs(n, d); }
  }

  lemma MeantAll(n: string)
    requires n in BOUNDS
    ensures forall d | Meant()(n, d) :: BOUNDS[n].lo <= |d| <= BOUNDS[n].hi && FrameSound(n, d) && TextSound(n, d)
  {
    hide BOUNDS, FrameSound, TextSound, Meant;
    forall d | Meant()(n, d) ensures BOUNDS[n].lo <= |d| <= BOUNDS[n].hi && FrameSound(n, d) && TextSound(n, d) {
      MeantIs(n, d);
    }
  }

  /** What the properties above say of the frame rules and of the text rules, name by name. */
  lemma FramesMeant()
    ensures forall d | Meant()("channel", d) :: d == [0, 0]
    ensures forall d | Meant()("class-id", d) :: d == [0, 10]
    ensures forall d | Meant()("frame-end", d) :: d == [0xCE]
    ensures forall d | Meant()("frame-properties", d) :: |d| == 6 && d[..2] == [0, 0]
    ensures forall d | Meant()("method-payload", d) :: 4 <= |d| <= 156 && d[..2] == [0, 10]
    ensures forall d | Meant()("method-frame", d) :: FrameShape(d)
    ensures forall d | Meant()("method", d) :: FrameShape(d)
  {
    hide BOUNDS, Meant, FrameShape, TextSound;
    Upto6At();
    Upto8At();
    Upto10At();
    Upto13At();
    Upto17At();
    MeantAll("channel");
    MeantAll("class-id");
    MeantAll("frame-end");
    MeantAll("frame-properties");
    MeantAll("method-payload");
    MeantAll("method-frame");
    MeantAll("method");
  }

  lemma TextsMeant()
    ensures forall d | Meant()("UTF0", d) :: OneTail(d)
    ensures forall n, d | n in {"UTF1", "UTF2", "UTF3", "UTF4", "SAFE"} && Meant()(n, d) :: SafeChar(d)
    ensures forall d | Meant()("UTF8NUL", d) :: d == [0]
    ensures forall d | Meant()("authcid", d) :: Credential(d)
    ensures forall d | Meant()("passwd", d) :: Credential(d)
    ensures forall d | Meant()("message", d) :: PlainMessage(d)
  {
    hide BOUNDS, Meant, FrameSound, SafeChar, OneTail, Credential, PlainMessage;
    Upto6At();
    Upto8At();
    MeantAll("UTF0");
    MeantAll("UTF1");
    MeantAll("UTF2");
    MeantAll("UTF3");
    MeantAll("UTF4");
    MeantAll("SAFE");
    MeantAll("UTF8NUL");
    MeantAll("authcid");
    MeantAll("passwd");
    MeantAll("message");
  }

  lemma ChannelSound(c: Chain, b: seq<byte>)
    requires IsBase(c) && InBody(c, Meant(), "channel", b)
    ensures b == [0, 0]
  {
    hide IsBase, Defines, InBody, Meant, BOUNDS, FrameShape, SafeChar, Credential, PlainMessage, At;
    Channel(c);
    SymbolMeans(c, Meant(), "channel", Hex([0x00, 0x00]), b);
  }

  lemma ClassIdSound(c: Chain, b: seq<byte>)
    requires IsBase(c) && InBody(c, Meant(), "class-id", b)
    ensures b == [0, 10]
  {
    hide IsBase, Defines, InBody, Meant, BOUNDS, FrameShape, SafeChar, Credential, PlainMessage, At;
    ClassId(c);
    SymbolMeans(c, Meant(), "class-id", Hex([0x00, 0x0A]), b);
  }

  lemma FrameEndSound(c: Chain, b: seq<byte>)
    requires IsBase(c) && InBody(c, Meant(), "frame-end", b)
    ensures b == [0xCE]
  {
    hide IsBase, Defines, InBody, Meant, BOUNDS, FrameShape, SafeChar, Credential, PlainMessage, At;
    FrameEnd(c);
    SymbolMeans(c, Meant(), "frame-end", Hex([0xCE]), b);
  }

  lemma FramePropertiesSound(c: Chain, b: seq<byte>)
    requires IsBase(c) && InBody(c, Meant(), "frame-properties", b)
    ensures |b| == 6 && b[..2] == [0, 0]
  {
    hide IsBase, Defines, InBody, Meant, BOUNDS, FrameShape, SafeChar, Credential, PlainMessage, At;
    FrameProperties(c);
    FramesMeant();
    Upto13At();
    MeantLength("payload-size", 2, 4, 4);
    FramePropertiesShape(c, Meant(), "frame-properties", "channel", "payload-size", b);
  }

  lemma MethodPayloadSound(c: Chain, b: seq<byte>)
    requires IsBase(c) && InBody(c, Meant(), "method-payload", b)
    ensures |b| >= 4 && b[..2] == [0, 10]
  {
    hide IsBase, Defines, InBody, Meant, BOUNDS, FrameShape, SafeChar, Credential, PlainMessage, At;
    MethodPayload(c);
    FramesMeant();
    Upto10At();
    MeantLength("method-id", 1, 2, 2);
    PayloadShape(c, Meant(), "method-payload", "class-id", "method-id", "method-properties", b);
  }

  lemma MethodFrameSound(c: Chain, b: seq<byte>)
    requires IsBase(c) && InBody(c, Meant(), "method-frame", b)
    ensures FrameShape(b)
  {
    hide IsBase, Defines, InBody, Meant, BOUNDS, FrameShape, SafeChar, Credential, PlainMessage, At;
    MethodFrame(c);
    FramesMeant();
    MethodFrameShape(c, Meant(), "method-frame", "frame-properties", "method-payload", "frame-end", b);
  }

  lemma MethodSound(c: Chain, b: seq<byte>)
    requires IsBase(c) && InBody(c, Meant(), "method", b)
    ensures FrameShape(b)
  {
    hide IsBase, Defines, InBody, Meant, BOUNDS, FrameShape, SafeChar, Credential, PlainMessage, At;
    Method(c);
    FramesMeant();
    AliasMeans(c, Meant(), "method", "method-frame", b);
  }

  lemma UTF0Sound(c: Chain, b: seq<byte>)
    requires IsBase(c) && InBody(c, Meant(), "UTF0", b)
    ensures OneTail(b)
  {
    hide IsBase, Defines, InBody, Meant, BOUNDS, FrameShape, SafeChar, Credential, PlainMessage, At;
    UTF0(c);
    TailMeans(c, Meant(), "UTF0", b);
  }

  lemma UTF1Sound(c: Chain, b: seq<byte>)
    requires IsBase(c) && InBody(c, Meant(), "UTF1", b)
    ensures SafeChar(b)
  {
    hide IsBase, Defines, InBody, Meant, BOUNDS, FrameShape, SafeChar, Credential, PlainMessage, At;
    UTF1(c);
    Utf1Means(c, Meant(), "UTF1", b);
  }

  lemma UTF2Sound(c: Chain, b: seq<byte>)
    requires IsBase(c) && InBody(c, Meant(), "UTF2", b)
    ensures SafeChar(b)
  {
    hide IsBase, Defines, InBody, Meant, BOUNDS, FrameShape, SafeChar, Credential, PlainMessage, At;
    UTF2(c);
    TextsMeant();
    Utf2Means(c, Meant(), "UTF2", "UTF0", b);
  }

  lemma UTF3Sound(c: Chain, b: seq<byte>)
    requires IsBase(c) && InBody(c, Meant(), "UTF3", b)
    ensures SafeChar(b)
  {
    hide IsBase, Defines, InBody, Meant, BOUNDS, FrameShape, SafeChar, Credential, PlainMessage, At;
    UTF3(c);
    TextsMeant();
    Utf3Means(c, Meant(), "UTF3", "UTF0", b);
  }

  lemma UTF4Sound(c: Chain, b: seq<byte>)
    requires IsBase(c) && InBody(c, Meant(), "UTF4", b)
    ensures SafeChar(b)
  {
    hide IsBase, Defines, InBody, Meant, BOUNDS, FrameShape, SafeChar, Credential, PlainMessage, At;
    UTF4(c);
    TextsMeant();
    Utf4Means(c, Meant(), "UTF4", "UTF0", b);
  }

  lemma SAFESound(c: Chain, b: seq<byte>)
    requires IsBase(c) && InBody(c, Meant(), "SAFE", b)
    ensures SafeChar(b)
  {
    hide IsBase, Defines, InBody, Meant, BOUNDS, FrameShape, SafeChar, Credential, PlainMessage, At;
    SAFE(c);
    TextsMeant();
    SafeMeans(c, Meant(), "SAFE", "UTF1", "UTF2", "UTF3", "UTF4", b);
  }

  lemma UTF8NULSound(c: Chain, b: seq<byte>)
    requires IsBase(c) && InBody(c, Meant(), "UTF8NUL", b)
    ensures b == [0]
  {
    hide IsBase, Defines, InBody, Meant, BOUNDS, FrameShape, SafeChar, Credential, PlainMessage, At;
    UTF8NUL(c);
    SymbolMeans(c, Meant(), "UTF8NUL", Hex([0x00]), b);
  }

  lemma AuthcidSound(c: Chain, b: seq<byte>)
    requires IsBase(c) && InBody(c, Meant(), "authcid", b) && 1 <= |b| <= 64
    ensures Credential(b)
  {
    hide IsBase, Defines, InBody, Meant, BOUNDS, FrameShape, SafeChar, Credential, PlainMessage, At;
    Authcid(c);
    TextsMeant();
    CredentialMeans(c, Meant(), "authcid", "SAFE", b);
  }

  lemma PasswdSound(c: Chain, b: seq<byte>)
    requires IsBase(c) && InBody(c, Meant(), "passwd", b) && 1 <= |b| <= 64
    ensures Credential(b)
  {
    hide IsBase, Defines, InBody, Meant, BOUNDS, FrameShape, SafeChar, Credential, PlainMessage, At;
    Passwd(c);
    TextsMeant();
    CredentialMeans(c, Meant(), "passwd", "SAFE", b);
  }

  lemma MessageSound(c: Chain, b: seq<byte>)
    requires IsBase(c) && InBody(c, Meant(), "message", b)
    ensures PlainMessage(b)
  {
    hide IsBase, Defines, InBody, Meant, BOUNDS, FrameShape, SafeChar, Credential, PlainMessage, At;
    Message(c);
    TextsMeant();
    MessageMeans(c, Meant(), "message", "authzid", "UTF8NUL", "authcid", "passwd", b);
  }

  /* --- No unfolding leaves it --- */

  /** The clause about this name, whichever it is. */
  lemma FrameClause(c: Chain, n: string, b: seq<byte>)
    requires IsBase(c) && n in BOUNDS && InBody(c, Meant(), n, b)
    ensures FrameSound(n, b)
  {
    hide IsBase, InBody, Meant, BOUNDS, FrameShape;
    if n == "channel" { ChannelSound(c, b); }
    if n == "class-id" { ClassIdSound(c, b); }
    if n == "frame-end" { FrameEndSound(c, b); }
    if n == "frame-properties" { FramePropertiesSound(c, b); }
    if n == "method-payload" { MethodPayloadSound(c, b); }
    if n == "method-frame" { MethodFrameSound(c, b); }
    if n == "method" { MethodSound(c, b); }
  }

  lemma TextClause(c: Chain, n: string, b: seq<byte>)
    requires IsBase(c) && n in BOUNDS && InBody(c, Meant(), n, b) && BOUNDS[n].lo <= |b| <= BOUNDS[n].hi
    ensures TextSound(n, b)
  {
    hide IsBase, InBody, Meant, BOUNDS, OneTail, SafeChar, Credential, PlainMessage;
    if n == "UTF0" { UTF0Sound(c, b); }
    if n == "UTF1" { UTF1Sound(c, b); }
    if n == "UTF2" { UTF2Sound(c, b); }
    if n == "UTF3" { UTF3Sound(c, b); }
    if n == "UTF4" { UTF4Sound(c, b); }
    if n == "SAFE" { SAFESound(c, b); }
    if n == "UTF8NUL" { UTF8NULSound(c, b); }
    if n == "authcid" { Upto8At(); AuthcidSound(c, b); }
    if n == "passwd" { Upto6At(); PasswdSound(c, b); }
    if n == "message" { MessageSound(c, b); }
  }

  lemma LengthClause(c: Chain, n: string, b: seq<byte>)
    requires Stratified(c, BOUNDS) && n in BOUNDS && InBody(c, Meant(), n, b)
    ensures BOUNDS[n].lo <= |b| <= BOUNDS[n].hi
  {
    hide BOUNDS, FrameSound, TextSound, FitsEntry, InEntry, Plain;
    match Lookup(c, n)
    case None =>
    case Some(e) =>
      EntryMonotoneAll(Meant(), Sized(BOUNDS), e, b);
      FitSized(BOUNDS, BOUNDS[n], e, b);
  }

  lemma BaseClosed(c: Chain)
    requires IsBase(c) && Stratified(c, BOUNDS)
    ensures Closed(c, NamesOf(BOUNDS), Meant())
  {
    hide IsBase, Stratified, InBody, Meant, BOUNDS, FrameSound, TextSound, Plain;
    forall n, b | NamesOf(BOUNDS)(n) && InBody(c, Meant(), n, b) ensures Meant()(n, b) {
      LengthClause(c, n, b);
      FrameClause(c, n, b);
      TextClause(c, n, b);
      MeantIs(n, b);
    }
  }

  /** The base environment is good for the builders: ranked, sane, and inside Meant. */
  lemma BaseGood(level: Level)
    ensures Good(BaseChain(level), NamesOf(BOUNDS), RankOf(BOUNDS), Meant())
  {
    var c := BaseChain(level);
    hide BaseChain, IsBase, Stratified, Meant, BOUNDS, Ranked, Sane, Closed, RankOf;
    BaseModels(level);
    BaseStratified(level);
    StratifiedGood(c, BOUNDS);
    BaseClosed(c);
  }
}
