/**
 The idempotency key: SHA-256 over image bytes, a zero octet, the stripped caption in
 UTF-8, a zero octet, the policy version in UTF-8. Reading the hashed bytes from the right
 recovers the three parts exactly when caption and policy contain no NUL; the image may
 contain anything.
 */
module Hashing {
  import opened Domain
  import opened Text

  newtype byte = n: int | 0 <= n < 256

  // ---------------------------------------------------------------- UTF-8, section 3 of RFC 3629

  function Utf8Char(c: char): (b: seq<byte>)
    ensures 1 <= |b| <= 4
  {
    var n := c as int;
    if n < 0x80 then [n as byte]
    else if n < 0x800 then [(0xC0 + n / 64) as byte, (0x80 + n % 64) as byte]
    else if n < 0x10000 then
      [(0xE0 + n / 4096) as byte, (0x80 + n / 64 % 64) as byte, (0x80 + n % 64) as byte]
    else
      [(0xF0 + n / 262144) as byte, (0x80 + n / 4096 % 64) as byte,
       (0x80 + n / 64 % 64) as byte, (0x80 + n % 64) as byte]
  }

  function Utf8(s: string): seq<byte> {
    if s == "" then [] else Utf8Char(s[0]) + Utf8(s[1..])
  }

  /** The scalar value that starts b, and its length, read off the leading octet. */
  function FirstScalar(b: seq<byte>): (int, nat)
    requires b != []
  {
    var lead := b[0] as int;
    if lead < 0x80 || |b| < 2 then (lead, 1)
    else
      var second := b[1] as int - 0x80;
      if lead < 0xE0 || |b| < 3 then ((lead - 0xC0) * 64 + second, 2)
      else
        var third := b[2] as int - 0x80;
        if lead < 0xF0 || |b| < 4 then ((lead - 0xE0) * 4096 + second * 64 + third, 3)
        else ((lead - 0xF0) * 262144 + second * 4096 + third * 64 + b[3] as int - 0x80, 4)
  }

  lemma FirstScalarOfChar(c: char, rest: seq<byte>)
    ensures FirstScalar(Utf8Char(c) + rest) == (c as int, |Utf8Char(c)|)
  {
    var n := c as int;
    var b := Utf8Char(c) + rest;
    assert forall i | 0 <= i < |Utf8Char(c)| :: b[i] == Utf8Char(c)[i];
    assert n / 64 / 64 == n / 4096 && n / 4096 / 64 == n / 262144;
  }

  lemma {:induction false} Utf8IsInjective(s: string, t: string)
    requires Utf8(s) == Utf8(t)
    ensures s == t
  {
    if s != "" && t != "" {
      FirstScalarOfChar(s[0], Utf8(s[1..]));
      FirstScalarOfChar(t[0], Utf8(t[1..]));
      assert s[0] == t[0];
      var k := |Utf8Char(s[0])|;
      assert Utf8(s)[k..] == Utf8(s[1..]) && Utf8(t)[k..] == Utf8(t[1..]);
      Utf8IsInjective(s[1..], t[1..]);
    }
  }

  predicate HasNul(s: string) { exists i | 0 <= i < |s| :: s[i] == '\0' }

  predicate HasZero(b: seq<byte>) { exists i | 0 <= i < |b| :: b[i] == 0 }

  /** The zero octet encodes U+0000 and nothing else (section 1 of RFC 3629). */
  lemma {:induction false} ZeroOnlyFromNul(s: string)
    ensures HasZero(Utf8(s)) <==> HasNul(s)
  {
    if s != "" {
      ZeroOnlyFromNul(s[1..]);
      var head := Utf8Char(s[0]);
      var tail := Utf8(s[1..]);
      if HasZero(tail) { var i :| 0 <= i < |tail| && tail[i] == 0; assert Utf8(s)[|head| + i] == 0; }
      if s[0] == '\0' { assert Utf8(s)[0] == 0; }
      if HasNul(s[1..]) { var i :| 0 <= i < |s[1..]| && s[1..][i] == '\0'; assert s[i + 1] == '\0'; }
      if HasZero(Utf8(s)) {
        var i :| 0 <= i < |Utf8(s)| && Utf8(s)[i] == 0;
        if i < |head| { assert head[i] == 0; } else { assert tail[i - |head|] == 0; }
      }
      if HasNul(s) {
        var i :| 0 <= i < |s| && s[i] == '\0';
        if i > 0 { assert s[1..][i - 1] == '\0'; }
      }
    }
  }

  // ---------------------------------------------------------------- the key

  /** A hashlib object: it remembers what it was fed. */
  class Sha256 {
    var fed: seq<byte>

    constructor ()
      ensures fed == []
    {
      fed := [];
    }

    method Update(b: seq<byte>)
      modifies this
      ensures fed == old(fed) + b
    {
      fed := fed + b;
    }
  }

  function Preimage(image: seq<byte>, caption: string, policy: string): seq<byte> {
    image + [0] + Utf8(Strip(caption)) + [0] + Utf8(policy)
  }

  /** content_hash, over an unknown digest function. */
  method ContentHash(image: seq<byte>, caption: string, policy: string, digest: seq<byte> -> string)
    returns (key: string)
    ensures key == digest(Preimage(image, caption, policy))
  {
    var h := new Sha256();
    h.Update(image);
    h.Update([0]);
    h.Update(Utf8(Strip(caption)));
    h.Update([0]);
    h.Update(Utf8(policy));
    assert h.fed == Preimage(image, caption, policy);
    key := digest(h.fed);
  }

  // ---------------------------------------------------------------- reading it back

  /** One past the last zero octet of b, or 0 when there is none. */
  function PastLastZero(b: seq<byte>): (k: nat)
    ensures k <= |b| && !HasZero(b[k..]) && (k > 0 ==> b[k - 1] == 0)
  {
    if b == [] then 0
    else if b[|b| - 1] == 0 then |b|
    else
      var k := PastLastZero(b[..|b| - 1]);
      assert forall i | k <= i < |b| - 1 :: b[..|b| - 1][k..][i - k] == b[i];
      k
  }

  lemma NoZeroFrom(b: seq<byte>, k: nat)
    requires k <= |b| && !HasZero(b[k..])
    ensures forall i | k <= i < |b| :: b[i] != 0
  {
    forall i | k <= i < |b| ensures b[i] != 0 { assert b[k..][i - k] == b[i]; }
  }

  lemma PastLastZeroIs(b: seq<byte>, k: nat)
    requires 0 < k <= |b| && b[k - 1] == 0 && !HasZero(b[k..])
    ensures PastLastZero(b) == k
  {
    NoZeroFrom(b, k);
    NoZeroFrom(b, PastLastZero(b));
  }

  datatype Parts = Parts(image: seq<byte>, caption: seq<byte>, policy: seq<byte>)

  function Parse(b: seq<byte>): Option<Parts> {
    var k := PastLastZero(b);
    if k == 0 then None
    else
      var m := PastLastZero(b[..k - 1]);
      if m == 0 then None else Some(Parts(b[..m - 1], b[m..k - 1], b[k..]))
  }

  lemma ParseFindsParts(image: seq<byte>, caption: seq<byte>, policy: seq<byte>)
    requires !HasZero(caption) && !HasZero(policy)
    ensures Parse(image + [0] + caption + [0] + policy) == Some(Parts(image, caption, policy))
  {
    var front := image + [0] + caption;
    var b := front + [0] + policy;
    assert b[|front| + 1..] == policy && b[..|front|] == front;
    PastLastZeroIs(b, |front| + 1);
    assert front[|image| + 1..] == caption && front[..|image|] == image;
    PastLastZeroIs(front, |image| + 1);
    assert b[..|front| + 1 - 1] == front;
    assert b[|image| + 1..|front|] == caption && b[..|image|] == image;
  }

  lemma ParsedPartsHaveNoZero(b: seq<byte>)
    requires Parse(b).Some?
    ensures !HasZero(Parse(b).value.caption) && !HasZero(Parse(b).value.policy)
  {
    var k := PastLastZero(b);
    var m := PastLastZero(b[..k - 1]);
    assert b[..k - 1][m..] == b[m..k - 1];
  }

  /** The parser recovers the parts exactly when caption and policy are free of NUL. */
  lemma ParseRecoversIff(image: seq<byte>, caption: string, policy: string)
    ensures Parse(Preimage(image, caption, policy)) == Some(Parts(image, Utf8(Strip(caption)), Utf8(policy)))
            <==> !HasNul(Strip(caption)) && !HasNul(policy)
  {
    ZeroOnlyFromNul(Strip(caption));
    ZeroOnlyFromNul(policy);
    if !HasNul(Strip(caption)) && !HasNul(policy) {
      ParseFindsParts(image, Utf8(Strip(caption)), Utf8(policy));
    } else if Parse(Preimage(image, caption, policy)).Some? {
      ParsedPartsHaveNoZero(Preimage(image, caption, policy));
    }
  }

  /** With a collision-free digest the key identifies image, stripped caption and policy. */
  lemma KeyIdentifies(digest: seq<byte> -> string, image: seq<byte>, caption: string, policy: string,
                      image': seq<byte>, caption': string, policy': string)
    requires forall a, b :: digest(a) == digest(b) ==> a == b
    requires !HasNul(Strip(caption)) && !HasNul(policy) && !HasNul(Strip(caption')) && !HasNul(policy')
    ensures digest(Preimage(image, caption, policy)) == digest(Preimage(image', caption', policy'))
            <==> image == image' && Strip(caption) == Strip(caption') && policy == policy'
  {
    if Preimage(image, caption, policy) == Preimage(image', caption', policy') {
      ParseRecoversIff(image, caption, policy);
      ParseRecoversIff(image', caption', policy');
      Utf8IsInjective(Strip(caption), Strip(caption'));
      Utf8IsInjective(policy, policy');
    }
  }

  // ---------------------------------------------------------------- exactly who shares a key

  lemma {:induction false} Utf8Appends(s: string, t: string)
    ensures Utf8(s + t) == Utf8(s) + Utf8(t)
  {
    if s == "" {
      assert s + t == t;
    } else {
      assert (s + t)[1..] == s[1..] + t;
      Utf8Appends(s[1..], t);
    }
  }

  lemma Utf8AppendsNul(x: string, y: string)
    ensures Utf8(x + "\0" + y) == Utf8(x) + [0] + Utf8(y)
  {
    Utf8Appends(x + "\0", y);
    Utf8Appends(x, "\0");
    assert "\0"[1..] == "" && Utf8("\0") == [0];
  }

  /** A zero octet in the encoding cuts the text at a NUL. */
  lemma {:induction false} ZeroCutsText(s: string, k: nat) returns (x: string, y: string)
    requires k < |Utf8(s)| && Utf8(s)[k] == 0
    ensures s == x + "\0" + y && Utf8(s)[..k] == Utf8(x) && Utf8(s)[k + 1..] == Utf8(y)
    decreases |s|
  {
    var head := Utf8Char(s[0]);
    if k < |head| {
      assert head[k] == 0;
      x, y := "", s[1..];
    } else {
      x, y := ZeroCutsText(s[1..], k - |head|);
      assert Utf8([s[0]] + x) == head + Utf8(x) by { assert ([s[0]] + x)[1..] == x; }
      x := [s[0]] + x;
    }
  }

  predicate Cuts(s: string, x: string, y: string) { s == x + "\0" + y }

  /** The front of the text, up to some NUL, has moved into the image. */
  ghost predicate Shifts(image: seq<byte>, s: string, image': seq<byte>, s': string) {
    exists x: string :: Cuts(s, x, s') && image' == image + [0] + Utf8(x)
  }

  lemma ShiftedIsSame(image: seq<byte>, s: string, image': seq<byte>, s': string)
    requires Shifts(image, s, image', s')
    ensures image + [0] + Utf8(s) == image' + [0] + Utf8(s')
  {
    var x: string :| Cuts(s, x, s') && image' == image + [0] + Utf8(x);
    Utf8AppendsNul(x, s');
  }

  lemma SameIsShifted(image: seq<byte>, s: string, image': seq<byte>, s': string)
    requires image + [0] + Utf8(s) == image' + [0] + Utf8(s') && |image| < |image'|
    ensures Shifts(image, s, image', s')
  {
    var b, b', k := image + [0] + Utf8(s), image' + [0] + Utf8(s'), |image'| - |image| - 1;
    assert b[|image| + 1 + k] == Utf8(s)[k] && b'[|image'|] == 0;
    var x, y := ZeroCutsText(s, k);
    assert b[..|image'|] == image + [0] + Utf8(s)[..k] && b'[..|image'|] == image';
    assert b[|image'| + 1..] == Utf8(s)[k + 1..] && b'[|image'| + 1..] == Utf8(s');
    Utf8IsInjective(s', y);
    assert Cuts(s, x, s');
  }

  /** An image and a text give the same bytes as another pair exactly when one is the other shifted. */
  lemma SameBytesIff(image: seq<byte>, s: string, image': seq<byte>, s': string)
    ensures image + [0] + Utf8(s) == image' + [0] + Utf8(s')
            <==> (image == image' && s == s') || Shifts(image, s, image', s') || Shifts(image', s', image, s)
  {
    if Shifts(image, s, image', s') { ShiftedIsSame(image, s, image', s'); }
    if Shifts(image', s', image, s) { ShiftedIsSame(image', s', image, s); }
    if image + [0] + Utf8(s) == image' + [0] + Utf8(s') {
      if |image| < |image'| { SameIsShifted(image, s, image', s'); }
      else if |image'| < |image| { SameIsShifted(image', s', image, s); }
      else {
        assert (image + [0] + Utf8(s))[..|image|] == image && (image' + [0] + Utf8(s'))[..|image|] == image';
        assert (image + [0] + Utf8(s))[|image| + 1..] == Utf8(s);
        assert (image' + [0] + Utf8(s'))[|image| + 1..] == Utf8(s');
        Utf8IsInjective(s, s');
      }
    }
  }

  /** Caption and policy as one text. */
  function Joined(caption: string, policy: string): string { Strip(caption) + "\0" + policy }

  lemma PreimageIsJoined(image: seq<byte>, caption: string, policy: string)
    ensures Preimage(image, caption, policy) == image + [0] + Utf8(Joined(caption, policy))
  {
    Utf8AppendsNul(Strip(caption), policy);
    assert image + [0] + Utf8(Strip(caption)) + [0] + Utf8(policy)
           == image + [0] + (Utf8(Strip(caption)) + [0] + Utf8(policy));
  }

  /** Across policies: the same bytes exactly when caption and policy, read as one text, are equal or shifted. */
  lemma SamePreimageIff(image: seq<byte>, caption: string, policy: string,
                        image': seq<byte>, caption': string, policy': string)
    ensures Preimage(image, caption, policy) == Preimage(image', caption', policy')
            <==> (image == image' && Joined(caption, policy) == Joined(caption', policy'))
                 || Shifts(image, Joined(caption, policy), image', Joined(caption', policy'))
                 || Shifts(image', Joined(caption', policy'), image, Joined(caption, policy))
  {
    PreimageIsJoined(image, caption, policy);
    PreimageIsJoined(image', caption', policy');
    SameBytesIff(image, Joined(caption, policy), image', Joined(caption', policy'));
  }

  lemma SamePrefixes(image: seq<byte>, caption: string, image': seq<byte>, caption': string, policy: string)
    ensures Preimage(image, caption, policy) == Preimage(image', caption', policy)
            <==> image + [0] + Utf8(Strip(caption)) == image' + [0] + Utf8(Strip(caption'))
  {
    var a, b := image + [0] + Utf8(Strip(caption)), image' + [0] + Utf8(Strip(caption'));
    var rest := [0] + Utf8(policy);
    assert Preimage(image, caption, policy) == a + rest && Preimage(image', caption', policy) == b + rest;
    if a + rest == b + rest { assert a == (a + rest)[..|a|] && b == (b + rest)[..|b|]; }
  }

  /** Two uploads under one policy share a key exactly when one is the other with part of its caption in its image. */
  lemma SameKeyIff(digest: seq<byte> -> string, image: seq<byte>, caption: string,
                   image': seq<byte>, caption': string, policy: string)
    requires forall a, b :: digest(a) == digest(b) ==> a == b
    ensures digest(Preimage(image, caption, policy)) == digest(Preimage(image', caption', policy))
            <==> (image == image' && Strip(caption) == Strip(caption'))
                 || Shifts(image, Strip(caption), image', Strip(caption'))
                 || Shifts(image', Strip(caption'), image, Strip(caption))
  {
    SamePrefixes(image, caption, image', caption', policy);
    SameBytesIff(image, Strip(caption), image', Strip(caption'));
  }

  /** Some other upload, not an empty file, has the same bytes under this policy. */
  ghost predicate SharesKey(image: seq<byte>, caption: string, policy: string) {
    exists image': seq<byte>, caption': string ::
      && image' != [] && (image' != image || Strip(caption') != Strip(caption))
      && Preimage(image', caption', policy) == Preimage(image, caption, policy)
  }

  /** What follows some NUL of the caption is itself a stripped caption. */
  ghost predicate CaptionSplits(s: string) { exists x: string, y: string :: Cuts(s, x, y) && Trimmed(y) }

  /** The image ends in a zero octet and a text that could have stood in front of the caption. */
  ghost predicate ImageSplits(image: seq<byte>, s: string) {
    exists image': seq<byte>, x: string ::
      image' != [] && image == image' + [0] + Utf8(x) && Trimmed(x + "\0" + s)
  }

  lemma CaptionSplitShares(image: seq<byte>, caption: string, policy: string)
    requires CaptionSplits(Strip(caption))
    ensures SharesKey(image, caption, policy)
  {
    var s := Strip(caption);
    var x: string, y: string :| Cuts(s, x, y) && Trimmed(y);
    var longer := image + [0] + Utf8(x);
    TrimmedIsStripped(y);
    assert Shifts(image, s, longer, y);
    ShiftedIsSame(image, s, longer, y);
    assert longer != image && longer != [] && Preimage(longer, y, policy) == Preimage(image, caption, policy);
  }

  lemma ImageSplitShares(image: seq<byte>, caption: string, policy: string)
    requires ImageSplits(image, Strip(caption))
    ensures SharesKey(image, caption, policy)
  {
    var s := Strip(caption);
    var shorter: seq<byte>, x: string :|
      shorter != [] && image == shorter + [0] + Utf8(x) && Trimmed(x + "\0" + s);
    var t := x + "\0" + s;
    TrimmedIsStripped(t);
    assert Cuts(t, x, s) && Shifts(shorter, t, image, s);
    ShiftedIsSame(shorter, t, image, s);
    assert shorter != image && Preimage(shorter, t, policy) == Preimage(image, caption, policy);
  }

  /** Exactly which uploads share their key with another one: a NUL in the caption is neither necessary nor enough. */
  lemma SharesKeyIff(image: seq<byte>, caption: string, policy: string)
    ensures SharesKey(image, caption, policy) <==> CaptionSplits(Strip(caption)) || ImageSplits(image, Strip(caption))
  {
    if SharesKey(image, caption, policy) {
      var image': seq<byte>, caption': string :|
        && image' != [] && (image' != image || Strip(caption') != Strip(caption))
        && Preimage(image', caption', policy) == Preimage(image, caption, policy);
      SharersSplit(image, caption, image', caption', policy);
    }
    if CaptionSplits(Strip(caption)) { CaptionSplitShares(image, caption, policy); }
    if ImageSplits(image, Strip(caption)) { ImageSplitShares(image, caption, policy); }
  }

  lemma SharersSplit(image: seq<byte>, caption: string, image': seq<byte>, caption': string, policy: string)
    requires image' != [] && (image' != image || Strip(caption') != Strip(caption))
    requires Preimage(image', caption', policy) == Preimage(image, caption, policy)
    ensures CaptionSplits(Strip(caption)) || ImageSplits(image, Strip(caption))
  {
    var s, s' := Strip(caption), Strip(caption');
    CoreIsTrimmed(caption');
    SamePrefixes(image, caption, image', caption', policy);
    SameBytesIff(image, s, image', s');
    if Shifts(image, s, image', s') {
      var x: string :| Cuts(s, x, s') && image' == image + [0] + Utf8(x);
    } else {
      var x: string :| Cuts(s', x, s) && image == image' + [0] + Utf8(x);
    }
  }

  /** A caption with a NUL that nothing else collides with: neither side of the NUL is a stripped caption. */
  lemma NulMayBeHarmless(image: seq<byte>, policy: string)
    requires !HasZero(image)
    ensures HasNul(Strip("a \0 b")) && !SharesKey(image, "a \0 b", policy)
  {
    var s := "a \0 b";
    assert Trimmed(s);
    TrimmedIsStripped(s);
    assert s[2] == '\0';
    forall x: string, y: string | Cuts(s, x, y) ensures !Trimmed(y) {
      assert s[|x|] == '\0' && y == s[|x| + 1..];
    }
    forall image': seq<byte>, x: string ensures image != image' + [0] + Utf8(x) {
      assert (image' + [0] + Utf8(x))[|image'|] == 0;
    }
    SharesKeyIff(image, s, policy);
  }

  /** And one with a NUL that does collide, for every image, with a caption without any. */
  lemma NulCollides(image: seq<byte>, policy: string)
    ensures Preimage(image, "a\0b", policy) == Preimage(image + [0, 97], "b", policy)
  {
    assert Trimmed("a\0b") && Trimmed("b");
    assert TextStart("a\0b") == 0 && TextEnd("a\0b", 3) == 3 && TextStart("b") == 0 && TextEnd("b", 1) == 1;
    assert Strip("a\0b") == "a\0b" && Strip("b") == "b";
    var s := "a\0b";
    assert s[1..] == "\0b" && s[1..][1..] == "b" && s[1..][1..][1..] == "";
    assert Utf8("b") == [98] + Utf8("") && Utf8("\0b") == [0] + Utf8("b") && Utf8(s) == [97] + Utf8("\0b");
  }

  /** accept_image strips the caption before hashing; content_hash strips it again. */
  lemma ExtraStripIsHarmless(image: seq<byte>, caption: string, policy: string)
    ensures Preimage(image, Strip(caption), policy) == Preimage(image, caption, policy)
  {
    StripIsIdempotent(caption);
  }
}
