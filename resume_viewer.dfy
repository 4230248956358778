/** The resume viewer: zoom in steps of 25 between 50 and 200, rotation in
    quarter turns, and the mock e-mail line of the placeholder resume. */
module ResumeViewer {
  import opened Text

  /** A zoom level the viewer can show: 50 to 200 in steps of 25. */
  predicate ZoomValid(z: int)
  {
    50 <= z <= 200 && z % 25 == 0
  }

  /** A rotation the viewer can show: a quarter turn from 0 to 270. */
  predicate RotationValid(r: int)
  {
    r == 0 || r == 90 || r == 180 || r == 270
  }

  /** `Math.min(prev + 25, 200)`. */
  function ZoomedIn(z: int): (r: int)
    ensures z <= 175 ==> r == z + 25
    ensures z >= 175 ==> r == 200
    ensures ZoomValid(z) ==> ZoomValid(r)
  {
    if z + 25 <= 200 then z + 25 else 200
  }

  /** `Math.max(prev - 25, 50)`. */
  function ZoomedOut(z: int): (r: int)
    ensures z >= 75 ==> r == z - 25
    ensures z <= 75 ==> r == 50
    ensures ZoomValid(z) ==> ZoomValid(r)
  {
    if z - 25 >= 50 then z - 25 else 50
  }

  /** `(prev + 90) % 360`. */
  function Rotated(r: int): (s: int)
    ensures 0 <= s < 360
    ensures RotationValid(r) ==> RotationValid(s) && s != r
    ensures RotationValid(r) ==> s == if r == 270 then 0 else r + 90
  {
    (r + 90) % 360
  }

  /** Zooming in and then out gives back any level below the maximum. */
  lemma ZoomInOutRoundTrip(z: int)
    requires 50 <= z <= 175
    ensures ZoomedOut(ZoomedIn(z)) == z
  {
  }

  /** Zooming out and then in gives back any level above the minimum. */
  lemma ZoomOutInRoundTrip(z: int)
    requires 75 <= z <= 200
    ensures ZoomedIn(ZoomedOut(z)) == z
  {
  }

  /** At the limits the buttons change nothing. */
  lemma ZoomLimitsAreFixedPoints()
    ensures ZoomedIn(200) == 200 && ZoomedOut(50) == 50
  {
  }

  /** Four quarter turns give back the starting rotation. */
  lemma FourRotationsIdentity(r: int)
    requires RotationValid(r)
    ensures Rotated(Rotated(Rotated(Rotated(r)))) == r
  {
  }

  /** The viewer's state. */
  class Viewer {
    var zoom: int
    var rotation: int

    predicate Valid()
      reads this
    {
      ZoomValid(zoom) && RotationValid(rotation)
    }

    constructor ()
      ensures Valid() && zoom == 100 && rotation == 0
    {
      zoom := 100;
      rotation := 0;
    }

    /** `handleZoomIn`. */
    method ZoomIn()
      requires Valid()
      modifies this`zoom
      ensures Valid() && zoom == ZoomedIn(old(zoom))
    {
      zoom := ZoomedIn(zoom);
    }

    /** `handleZoomOut`. */
    method ZoomOut()
      requires Valid()
      modifies this`zoom
      ensures Valid() && zoom == ZoomedOut(old(zoom))
    {
      zoom := ZoomedOut(zoom);
    }

    /** `handleRotate`. */
    method Rotate()
      requires Valid()
      modifies this`rotation
      ensures Valid() && rotation == Rotated(old(rotation))
    {
      rotation := Rotated(rotation);
    }
  }

  /** The mock e-mail: the name lowered, its first space turned into `.`,
      then `@email.com`. */
  function MockEmail(name: string): (r: string)
    ensures |r| == |name| + 10 && r[|name|..] == "@email.com"
    ensures ' ' !in name ==> r[..|name|] == Lower(name)
    ensures ' ' in name ==> r[IndexOf(name, ' ')] == '.' && ' ' !in r[..IndexOf(name, ' ')]
    ensures ' ' in name ==> forall i :: 0 <= i < |name| && i != IndexOf(name, ' ') ==> r[i] == LowerChar(name[i])
  {
    var e := ReplaceFirst(Lower(name), ' ', '.');
    EmailLocalPart(name, e);
    AppendKeepsPrefix(e, "@email.com");
    e + "@email.com"
  }

  /** The part before `@`. */
  lemma EmailLocalPart(name: string, e: string)
    requires e == ReplaceFirst(Lower(name), ' ', '.')
    ensures |e| == |name|
    ensures ' ' !in name ==> e == Lower(name)
    ensures ' ' in name ==> e[IndexOf(name, ' ')] == '.' && ' ' !in e[..IndexOf(name, ' ')]
    ensures ' ' in name ==> forall i :: 0 <= i < |name| && i != IndexOf(name, ' ') ==> e[i] == LowerChar(name[i])
  {
    LowerKeepsSpaces(name);
    if ' ' in name {
      FirstSpaceReplaced(name, e);
      OtherCharsLowered(name, e);
    }
  }

  lemma AppendKeepsPrefix(e: string, s: string)
    ensures (e + s)[..|e|] == e && (e + s)[|e|..] == s
    ensures forall k :: 0 <= k <= |e| ==> (e + s)[..k] == e[..k]
  {
  }

  lemma FirstSpaceReplaced(name: string, e: string)
    requires e == ReplaceFirst(Lower(name), ' ', '.') && ' ' in name
    ensures e[IndexOf(name, ' ')] == '.' && ' ' !in e[..IndexOf(name, ' ')]
  {
    LowerKeepsSpaces(name);
    NoSpaceBeforeFirst(name, e);
  }

  lemma NoSpaceBeforeFirst(name: string, e: string)
    requires e == ReplaceFirst(Lower(name), ' ', '.') && ' ' in name
    ensures ' ' !in e[..IndexOf(name, ' ')]
  {
    LowerKeepsSpaces(name);
    var l := Lower(name);
    var k := IndexOf(l, ' ');
    forall j | 0 <= j < k ensures e[..k][j] != ' ' {
      assert l[..k][j] == l[j];
    }
  }

  lemma OtherCharsLowered(name: string, e: string)
    requires e == ReplaceFirst(Lower(name), ' ', '.') && ' ' in name
    ensures forall i :: 0 <= i < |name| && i != IndexOf(name, ' ') ==> e[i] == LowerChar(name[i])
  {
    LowerKeepsSpaces(name);
  }

  /** Lowering moves no space: the first space of the lowered name is the name's first space. */
  lemma LowerKeepsSpaces(s: string)
    ensures (' ' in Lower(s)) == (' ' in s)
    ensures ' ' in s ==> IndexOf(Lower(s), ' ') == IndexOf(s, ' ')
  {
    var l := Lower(s);
    assert forall i :: 0 <= i < |s| ==> (l[i] == ' ' <==> s[i] == ' ');
    if ' ' in s {
      var k := IndexOf(s, ' ');
      assert forall i :: 0 <= i < k ==> l[..k][i] == l[i] && s[..k][i] == s[i];
      IndexOfUnique(l, ' ', k);
    }
  }

  /** A second space in the name stays a space. */
  lemma MockEmailKeepsLaterSpaces(name: string, i: int)
    requires ' ' in name && IndexOf(name, ' ') < i < |name| && name[i] == ' '
    ensures MockEmail(name)[i] == ' '
  {
  }
}
