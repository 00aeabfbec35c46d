/** Version strings, the C comparison of them, and where an application image keeps its own. */
module Versions {

  type byte = x: int | 0 <= x < 256

  /** The characters before the first NUL. */
  function CString(field: seq<byte>): seq<byte> {
    if field == [] || field[0] == 0 then [] else [field[0]] + CString(field[1..])
  }

  /** `strcmp` on two strings of non-zero bytes; only the sign of the result means anything. */
  function Compare(a: seq<byte>, b: seq<byte>): int {
    if a == [] && b == [] then 0
    else if a == [] then -1
    else if b == [] then 1
    else if a[0] != b[0] then a[0] - b[0]
    else Compare(a[1..], b[1..])
  }

  predicate Newer(a: seq<byte>, b: seq<byte>) {
    Compare(a, b) > 0
  }

  lemma {:induction false} CompareIsAntisymmetric(a: seq<byte>, b: seq<byte>)
    ensures Compare(a, b) == 0 <==> a == b
    ensures Compare(a, b) > 0 <==> Compare(b, a) < 0
  {
    if a == [] || b == [] || a[0] != b[0] {
    } else {
      CompareIsAntisymmetric(a[1..], b[1..]);
      assert a == [a[0]] + a[1..] && b == [b[0]] + b[1..];
    }
  }

  lemma {:induction false} NewerIsTransitive(a: seq<byte>, b: seq<byte>, c: seq<byte>)
    requires Newer(a, b) && Newer(b, c)
    ensures Newer(a, c)
  {
    if b == [] || c == [] || a[0] != b[0] || b[0] != c[0] {
    } else {
      NewerIsTransitive(a[1..], b[1..], c[1..]);
    }
  }

  /** `Newer` is a strict total order on version strings. */
  lemma NewerIsStrictTotalOrder(a: seq<byte>, b: seq<byte>, c: seq<byte>)
    ensures !Newer(a, a)
    ensures Newer(a, b) && Newer(b, c) ==> Newer(a, c)
    ensures a != b ==> (Newer(a, b) <==> !Newer(b, a))
  {
    CompareIsAntisymmetric(a, a);
    CompareIsAntisymmetric(a, b);
    CompareIsAntisymmetric(b, a);
    if Newer(a, b) && Newer(b, c) {
      NewerIsTransitive(a, b, c);
    }
  }

  /** The strings agree on the first k bytes, and there the first one goes on while the second ends, or
      has the larger byte. */
  predicate LargerAt(a: seq<byte>, b: seq<byte>, k: nat) {
    && k <= |a| && k <= |b| && a[..k] == b[..k]
    && (if k == |b| then k < |a| else k < |a| && a[k] > b[k])
  }

  /** `Newer` is the lexicographic order of bytes, in which "9" is newer than "10". */
  lemma {:induction false} NewerIsLexicographic(a: seq<byte>, b: seq<byte>)
    ensures Newer(a, b) <==> exists k: nat :: LargerAt(a, b, k)
  {
    if a == [] || b == [] || a[0] != b[0] {
      assert Newer(a, b) ==> LargerAt(a, b, 0);
      forall k: nat | LargerAt(a, b, k) ensures Newer(a, b) {
        assert k > 0 ==> a[..k][0] == b[..k][0];
      }
    } else {
      NewerIsLexicographic(a[1..], b[1..]);
      forall k: nat ensures LargerAt(a[1..], b[1..], k) <==> LargerAt(a, b, k + 1) {
        LargerOneOn(a, b, k);
      }
      assert !LargerAt(a, b, 0);
      forall k: nat | LargerAt(a, b, k) ensures LargerAt(a[1..], b[1..], k - 1) {
        LargerOneOn(a, b, k - 1);
      }
    }
  }

  lemma LargerOneOn(a: seq<byte>, b: seq<byte>, k: nat)
    requires a != [] && b != [] && a[0] == b[0]
    ensures LargerAt(a[1..], b[1..], k) <==> LargerAt(a, b, k + 1)
  {
    if k + 1 <= |a| && k + 1 <= |b| {
      assert a[..k + 1] == [a[0]] + a[1..][..k] && b[..k + 1] == [b[0]] + b[1..][..k];
      assert a[..k + 1] == b[..k + 1] ==> a[1..][..k] == a[..k + 1][1..] == b[..k + 1][1..] == b[1..][..k];
    }
  }

  // The application image format of ESP-IDF: an image header, a segment header, and the
  // application description, whose version field follows three words and eight bytes.
  const HEADERS := 24 + 8
  const APP_DESC := 256
  const VERSION_AT := HEADERS + 16
  const VERSION_MAX := HEADERS + APP_DESC - VERSION_AT - 1

  /** The version as `strcmp` reads it: up to the first zero byte, past the 32 bytes of its field if
      need be, but not past the last byte of the description. */
  function VersionOf(image: seq<byte>): seq<byte> {
    if |image| < HEADERS + APP_DESC then [] else CString(image[VERSION_AT..VERSION_AT + VERSION_MAX])
  }

  /** The version is settled by the first packet that holds it, whatever is appended. */
  lemma VersionIsInFirstPacket(first: seq<byte>, rest: seq<byte>)
    requires |first| > HEADERS + APP_DESC
    ensures VersionOf(first + rest) == VersionOf(first)
  {
    assert (first + rest)[VERSION_AT..VERSION_AT + VERSION_MAX] == first[VERSION_AT..VERSION_AT + VERSION_MAX];
  }

  // ---------------------------------------------------------------- the versions that images can carry

  predicate IsVersion(v: seq<byte>) {
    |v| <= VERSION_MAX && 0 !in v
  }

  /** An image of the least length the header check accepts, carrying the version. */
  function ImageWith(version: seq<byte>): seq<byte> {
    seq(HEADERS + APP_DESC + 1,
        k requires k >= 0 => if VERSION_AT <= k < VERSION_AT + |version| then version[k - VERSION_AT] else 0)
  }

  lemma {:induction false} CStringStops(field: seq<byte>, v: seq<byte>)
    requires v <= field && 0 !in v && (|v| == |field| || field[|v|] == 0)
    ensures CString(field) == v
  {
    if v == [] {
    } else {
      assert v == [v[0]] + v[1..];
      CStringStops(field[1..], v[1..]);
    }
  }

  lemma {:induction false} CStringHasNoZero(field: seq<byte>)
    ensures 0 !in CString(field) && |CString(field)| <= |field|
  {
    if field == [] || field[0] == 0 {
    } else {
      CStringHasNoZero(field[1..]);
    }
  }

  /** Exactly the strings of at most `VERSION_MAX` non-zero bytes are versions of images. */
  lemma VersionsOfImages(image: seq<byte>, v: seq<byte>)
    ensures IsVersion(VersionOf(image))
    ensures IsVersion(v) ==> VersionOf(ImageWith(v)) == v
  {
    if |image| >= HEADERS + APP_DESC {
      CStringHasNoZero(image[VERSION_AT..VERSION_AT + VERSION_MAX]);
    }
    if IsVersion(v) {
      var field := ImageWith(v)[VERSION_AT..VERSION_AT + VERSION_MAX];
      assert field[..|v|] == v;
      assert |v| < |field| ==> field[|v|] == ImageWith(v)[VERSION_AT + |v|] == 0;
      CStringStops(field, v);
    }
  }

  /** The version stands 48 bytes into an image, ends at the first zero byte, and is read only from
      images that hold the 288 bytes of headers and description. */
  lemma VersionLayout(front: seq<byte>, v: seq<byte>, back: seq<byte>)
    requires |front| == 48 && 0 !in v && |v| <= 239
    ensures var image := front + v + [0] + back;
      VersionOf(image) == if |image| >= 288 then v else []
  {
    var image := front + v + [0] + back;
    if |image| >= 288 {
      var field := image[VERSION_AT..VERSION_AT + VERSION_MAX];
      var rest := v + ([0] + back);
      assert image == front + rest;
      assert field == rest[..VERSION_MAX];
      assert rest[..|v|] == v && rest[|v|] == 0;
      assert field[..|v|] == v;
      CStringStops(field, v);
    }
  }

  const TOP_VERSION: seq<byte> := seq(VERSION_MAX, k => 255)

  lemma {:induction false} NothingAboveTop(v: seq<byte>, top: seq<byte>)
    requires |v| <= |top| && forall k :: 0 <= k < |top| ==> top[k] == 255
    ensures !Newer(v, top)
  {
    if v == [] || v[0] != top[0] {
    } else {
      NothingAboveTop(v[1..], top[1..]);
    }
  }

  /** No image is newer than one of the highest version. */
  lemma TopIsNewest(v: seq<byte>)
    requires IsVersion(v)
    ensures !Newer(v, TOP_VERSION) && IsVersion(TOP_VERSION)
  {
    NothingAboveTop(v, TOP_VERSION);
  }
}
