/**
 * The `#version` line that `getVersionComment` puts in front of every
 * preprocessed shader (section 3.3 of the OpenGL Shading Language 4.50
 * specification). The context's reported version and profile are plain
 * inputs here.
 */
module VersionDirective {
  import opened Decimal

  const Prefix: string := "#version "

  /**
   * `getVersionComment` for a context reporting version `major.minor`;
   * `isES` is the context's OpenGL ES flag.
   */
  function VersionComment(major: int, minor: int, isES: bool): (c: string)
    ensures |c| > |Prefix| + 3 && c[..|Prefix|] == "#version " && c[|c| - 1] == '\n'
    // the character before the newline is the 's' of "es" on ES and the final '0' of the version otherwise
    ensures c[|c| - 2] == (if isES then 's' else '0')
  {
    Prefix + VersionText(major, minor, isES) + "\n"
  }

  /** What the nested switch appends after "#version ". */
  function VersionText(major: int, minor: int, isES: bool): (t: string)
    ensures |t| >= 3
    ensures forall k :: 0 <= k < |t| ==> t[k] != '\n'
    ensures t[|t| - 1] == (if isES then 's' else '0')
  {
    if isES then Number(major) + Number(minor) + "0 es"
    else if major == 2 then
      if minor == 0 then "110" else "120"
    else if major == 3 && minor == 0 then "130"
    else if major == 3 && minor == 1 then "140"
    else if major == 3 && minor == 2 then "150"
    else Number(major) + Number(minor) + "0"
  }

  /**
   * Reference definition: the shading-language version a context asks for,
   * as a number. Desktop 2.x and 3.0-3.2 follow the table of the shading
   * language specifications; everything else is major * 100 + minor * 10.
   */
  function GlslVersion(major: int, minor: int, isES: bool): int
  {
    if isES then major * 100 + minor * 10
    else if major == 2 then (if minor == 0 then 110 else 120)
    else if major == 3 && 0 <= minor <= 2 then 130 + minor * 10
    else major * 100 + minor * 10
  }

  /**
   * Every comment starts with "#version ", ends with a newline and holds no
   * other newline, whatever the context reports.
   */
  lemma CommentShape(major: int, minor: int, isES: bool)
    ensures var c := VersionComment(major, minor, isES);
      |c| > |Prefix| + 1 && c[..|Prefix|] == "#version " && c[|c| - 1] == '\n' &&
      forall k :: 0 <= k < |c| - 1 ==> c[k] != '\n'
  {
    var c := VersionComment(major, minor, isES);
    var t := VersionText(major, minor, isES);
    forall k | 0 <= k < |c| - 1 ensures c[k] != '\n' {
      if k >= |Prefix| {
        assert c[k] == t[k - |Prefix|];
      }
    }
  }

  /** ES contexts: the two numbers concatenated, a zero, and the "es" profile. */
  lemma EsComment(major: int, minor: int)
    ensures VersionComment(major, minor, true) ==
      "#version " + Number(major) + Number(minor) + "0 es\n"
  {
  }

  lemma EsThreeZero()
    ensures VersionComment(3, 0, true) == "#version 300 es\n"
  {
  }

  /** Desktop 2.0 is 110; 2.1 and every other 2.x minor are 120. */
  lemma DesktopTwo(minor: int)
    ensures VersionComment(2, minor, false) ==
      if minor == 0 then "#version 110\n" else "#version 120\n"
  {
  }

  /** Desktop 3.0, 3.1 and 3.2 are 130, 140 and 150. */
  lemma DesktopThree()
    ensures VersionComment(3, 0, false) == "#version 130\n"
    ensures VersionComment(3, 1, false) == "#version 140\n"
    ensures VersionComment(3, 2, false) == "#version 150\n"
  {
  }

  /**
   * Every other desktop version, 3.3 and up within 3.x and every major
   * other than 2 and 3, is the two numbers concatenated and a zero.
   */
  lemma DesktopDefault(major: int, minor: int)
    requires major != 2
    requires major == 3 ==> minor !in {0, 1, 2}
    ensures VersionComment(major, minor, false) ==
      "#version " + Number(major) + Number(minor) + "0\n"
  {
  }

  lemma DesktopFourFive()
    ensures VersionComment(4, 5, false) == "#version 450\n"
  {
  }

  /**
   * For a context version with a positive major and a one-digit minor (all
   * real OpenGL and OpenGL ES versions), the comment states the number
   * `GlslVersion` in decimal, with " es" on ES.
   */
  lemma {:induction false} CommentStatesGlslVersion(major: int, minor: int, isES: bool)
    requires major >= 1 && 0 <= minor < 10
    ensures VersionComment(major, minor, isES) ==
      "#version " + Number(GlslVersion(major, minor, isES)) + (if isES then " es" else "") + "\n"
  {
    var v := GlslVersion(major, minor, isES);
    var suffix := if isES then " es" else "";
    var desktopTable := !isES && (major == 2 || (major == 3 && minor <= 2));
    if desktopTable {
      // 110, 120, ..., 150 are 1 * 100 + t * 10 for the digit t
      var t := v / 10 - 10;
      assert v == 1 * 100 + t * 10;
      ConcatenatedDigits(1, t);
      assert VersionText(major, minor, isES) == Number(1) + Number(t) + "0";
    } else {
      ConcatenatedDigits(major, minor);
      assert v == major * 100 + minor * 10;
      assert VersionText(major, minor, isES) == Number(major) + Number(minor) + "0" + suffix;
    }
    assert VersionText(major, minor, isES) == Number(v) + suffix;
  }

  /** Writing `major`, then the digit `minor`, then "0" spells major * 100 + minor * 10. */
  lemma {:induction false} ConcatenatedDigits(major: int, minor: int)
    requires major >= 1 && 0 <= minor < 10
    ensures Number(major) + Number(minor) + "0" == Number(major * 100 + minor * 10)
  {
    var k := major * 10 + minor;
    assert k >= 1;
    NatDigitsAppend(major, minor);
    NatDigitsAppend(k, 0);
    assert k * 10 + 0 == major * 100 + minor * 10;
  }
}
