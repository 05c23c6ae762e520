/** What a PLAIN message must be: section 2 of RFC 4616 over the UTF-8 of RFC 3629. */
module PlainText {
  import opened Octets
  import opened CText

  /* --- UTF-8 characters: the syntax of section 4 against the encoding of section 3 --- */

  predicate Tail(x: byte) { 0x80 <= x <= 0xBF }

  /** UTF8-char of RFC 3629, section 4. */
  predicate Utf8Char(b: seq<byte>)
  {
    match |b|
    case 1 => b[0] <= 0x7F
    case 2 => 0xC2 <= b[0] <= 0xDF && Tail(b[1])
    case 3 =>
      && Tail(b[2])
      && (|| (b[0] == 0xE0 && 0xA0 <= b[1] <= 0xBF)
          || (0xE1 <= b[0] <= 0xEC && Tail(b[1]))
          || (b[0] == 0xED && 0x80 <= b[1] <= 0x9F)
          || (0xEE <= b[0] <= 0xEF && Tail(b[1])))
    case 4 =>
      && Tail(b[2]) && Tail(b[3])
      && (|| (b[0] == 0xF0 && 0x90 <= b[1] <= 0xBF)
          || (0xF1 <= b[0] <= 0xF3 && Tail(b[1]))
          || (b[0] == 0xF4 && 0x80 <= b[1] <= 0x8F))
    case _ => false
  }

  /** A Unicode scalar value: no surrogates. */
  predicate Scalar(cp: nat) { cp <= 0x10_FFFF && !(0xD800 <= cp <= 0xDFFF) }

  /** The table of RFC 3629, section 3. */
  function Encode(cp: nat): seq<byte>
    requires Scalar(cp)
  {
    if cp < 0x80 then [cp]
    else if cp < 0x800 then [0xC0 + cp / 0x40, 0x80 + cp % 0x40]
    else if cp < 0x1_0000 then [0xE0 + cp / 0x1000, 0x80 + cp / 0x40 % 0x40, 0x80 + cp % 0x40]
    else [0xF0 + cp / 0x4_0000, 0x80 + cp / 0x1000 % 0x40, 0x80 + cp / 0x40 % 0x40, 0x80 + cp % 0x40]
  }

  /** The number a character's octets carry. */
  function Carried(b: seq<byte>): int
    requires Utf8Char(b)
  {
    match |b|
    case 1 => b[0]
    case 2 => ((b[0] as int) - 0xC0) * 0x40 + (b[1] - 0x80)
    case 3 => ((b[0] as int) - 0xE0) * 0x1000 + ((b[1] as int) - 0x80) * 0x40 + (b[2] - 0x80)
    case _ =>
      ((b[0] as int) - 0xF0) * 0x4_0000 + ((b[1] as int) - 0x80) * 0x1000
      + ((b[2] as int) - 0x80) * 0x40 + (b[3] - 0x80)
  }

  lemma CarriedThree(b: seq<byte>)
    requires |b| == 3 && Utf8Char(b)
    ensures 0x800 <= Carried(b) && Scalar(Carried(b)) && Encode(Carried(b)) == b
  {
    var x, y, z := (b[0] as int) - 0xE0, (b[1] as int) - 0x80, (b[2] as int) - 0x80;
    var cp := Carried(b);
    assert cp == (x * 0x40 + y) * 0x40 + z;
    assert cp / 0x40 == x * 0x40 + y && cp % 0x40 == z;
    assert cp / 0x1000 == x;
  }

  lemma CarriedFour(b: seq<byte>)
    requires |b| == 4 && Utf8Char(b)
    ensures 0x1_0000 <= Carried(b) && Scalar(Carried(b)) && Encode(Carried(b)) == b
  {
    var w, x, y, z := (b[0] as int) - 0xF0, (b[1] as int) - 0x80, (b[2] as int) - 0x80, (b[3] as int) - 0x80;
    var cp := Carried(b);
    assert cp == ((w * 0x40 + x) * 0x40 + y) * 0x40 + z;
    assert cp / 0x40 == (w * 0x40 + x) * 0x40 + y && cp % 0x40 == z;
    assert cp / 0x1000 == w * 0x40 + x;
    assert cp / 0x4_0000 == w;
  }

  lemma EncodedThree(cp: nat)
    requires Scalar(cp) && 0x800 <= cp < 0x1_0000
    ensures Utf8Char(Encode(cp))
  {
    var x, y := cp / 0x1000, cp / 0x40 % 0x40;
    assert cp / 0x40 == x * 0x40 + y;
  }

  lemma EncodedFour(cp: nat)
    requires Scalar(cp) && 0x1_0000 <= cp
    ensures Utf8Char(Encode(cp))
  {
    var w, x := cp / 0x4_0000, cp / 0x1000 % 0x40;
    assert cp / 0x1000 == w * 0x40 + x;
  }

  /** The two sections agree: the syntax describes exactly the encodings of scalar values. */
  lemma Utf8CharsAreScalars(b: seq<byte>)
    ensures Utf8Char(b) <==> exists cp: nat :: Scalar(cp) && Encode(cp) == b
  {
    if Utf8Char(b) {
      if |b| == 3 { CarriedThree(b); }
      if |b| == 4 { CarriedFour(b); }
      assert Scalar(Carried(b)) && Encode(Carried(b)) == b;
    }
    forall cp: nat | Scalar(cp) && Encode(cp) == b ensures Utf8Char(b) {
      if 0x800 <= cp < 0x1_0000 { EncodedThree(cp); }
      if 0x1_0000 <= cp { EncodedFour(cp); }
    }
  }

  /* --- Text --- */

  /** UTF8-octets of RFC 3629: a sequence of characters. */
  ghost predicate Utf8(b: seq<byte>)
    decreases |b|
  {
    b == [] || exists k :: 1 <= k <= |b| && Utf8Char(b[..k]) && Utf8(b[k..])
  }

  lemma Utf8Cons(x: seq<byte>, y: seq<byte>)
    requires Utf8Char(x) && Utf8(y)
    ensures Utf8(x + y)
  {
    var b := x + y;
    assert b[..|x|] == x && b[|x|..] == y;
  }

  predicate NulFree(b: seq<byte>) { forall i | 0 <= i < |b| :: b[i] != 0 }

  /** What the grammar can put between two NULs: well-formed text without NUL, 1 to 64 octets. */
  ghost predicate Credential(b: seq<byte>) { 1 <= |b| <= 64 && NulFree(b) && Utf8(b) }

  /* --- The message --- */

  function UpToNul(b: seq<byte>): (k: nat)
    ensures k <= |b| && NulFree(b[..k]) && (k < |b| ==> b[k] == 0)
  {
    if b == [] || b[0] == 0 then 0
    else
      var k := 1 + UpToNul(b[1..]);
      assert b[..k] == [b[0]] + b[1..][..k - 1];
      k
  }

  /** The parts a server finds by splitting at NUL: authzid, authcid, passwd. */
  function AuthParts(b: seq<byte>): Option<(seq<byte>, seq<byte>, seq<byte>)>
  {
    var i := UpToNul(b);
    if i == |b| then None
    else
      var j := UpToNul(b[i + 1..]);
      if j == |b[i + 1..]| then None
      else
        var passwd := b[i + 1..][j + 1..];
        if NulFree(passwd) then Some((b[..i], b[i + 1..][..j], passwd)) else None
  }

  function AuthMessage(authcid: seq<byte>, passwd: seq<byte>): seq<byte> { [0] + authcid + [0] + passwd }

  /** A PLAIN message without authorization identity. */
  ghost predicate PlainMessage(b: seq<byte>)
  {
    exists u, p :: Credential(u) && Credential(p) && b == AuthMessage(u, p)
  }

  lemma {:induction false} UpToNulOf(x: seq<byte>, rest: seq<byte>)
    requires NulFree(x) && (rest == [] || rest[0] == 0)
    ensures UpToNul(x + rest) == |x|
  {
    if x == [] {
      assert x + rest == rest;
    } else {
      assert (x + rest)[1..] == x[1..] + rest;
      UpToNulOf(x[1..], rest);
    }
  }

  /** Splitting recovers both credentials, so a message determines them. */
  lemma MessageSplits(u: seq<byte>, p: seq<byte>)
    requires NulFree(u) && NulFree(p)
    ensures AuthParts(AuthMessage(u, p)) == Some(([], u, p))
  {
    var b := AuthMessage(u, p);
    var rest := u + ([0] + p);
    assert b == [] + ([0] + rest);
    UpToNulOf([], [0] + rest);
    assert b[1..] == rest;
    UpToNulOf(u, [0] + p);
    assert rest[..|u|] == u && rest[|u| + 1..] == p;
  }

  /** A server that splits a PLAIN message at NUL finds two well-formed credentials and no
      authorization identity. */
  lemma PlainMessageSplits(b: seq<byte>)
    requires PlainMessage(b)
    ensures AuthParts(b).Some?
    ensures AuthParts(b).value.0 == [] && Credential(AuthParts(b).value.1) && Credential(AuthParts(b).value.2)
  {
    var u, p :| Credential(u) && Credential(p) && b == AuthMessage(u, p);
    MessageSplits(u, p);
  }
}
