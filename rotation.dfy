/** How `getOrientation` turns the stored EXIF Orientation value (the TIFF
    6.0 Orientation field, section 8 of that standard) into a clockwise
    rotation in degrees. */
module Rotation {
  import opened Wrappers
  import opened JavaLang
  import opened ExifTags

  /** The rotation for a stored orientation value: null text or text
      `Integer.parseInt` rejects gives 0; the codes for 90, 180 and 270
      degrees give those; every other number, the normal code included,
      gives 0. */
  function RotationOf(value: Option<string>): (degrees: int)
    ensures degrees in {0, 90, 180, 270}
    ensures degrees == 90 <==> value.Some? && ParseInt(value.value) == Some(OrientationRotate90)
    ensures degrees == 180 <==> value.Some? && ParseInt(value.value) == Some(OrientationRotate180)
    ensures degrees == 270 <==> value.Some? && ParseInt(value.value) == Some(OrientationRotate270)
  {
    match value
    case None => 0
    case Some(text) =>
      match ParseInt(text)
      case None => 0
      case Some(code) =>
        if code == OrientationNormal then 0
        else if code == OrientationRotate90 then 90
        else if code == OrientationRotate180 then 180
        else if code == OrientationRotate270 then 270
        else 0
  }

  /** The text `resetOrientation` stores reads as no rotation. */
  lemma RotationOfNormal()
    ensures RotationOf(Some(IntToString(OrientationNormal))) == 0
  {
    ParseIntOfIntToString(OrientationNormal);
  }

  /** The rotation of the four codes, an unknown code and a null value. */
  lemma RotationOfCodes()
    ensures RotationOf(None) == 0
    ensures RotationOf(Some("1")) == 0
    ensures RotationOf(Some("6")) == 90
    ensures RotationOf(Some("3")) == 180
    ensures RotationOf(Some("8")) == 270
    ensures RotationOf(Some("9")) == 0
  {
    assert DigitsValue("6") == 6;
    assert DigitsValue("3") == 3;
    assert DigitsValue("8") == 8;
    assert DigitsValue("1") == 1;
    assert DigitsValue("9") == 9;
  }

  /** Signs are read as `Integer.parseInt` reads them. */
  lemma RotationOfSigns()
    ensures RotationOf(Some("+6")) == 90
    ensures RotationOf(Some("-6")) == 0
  {
    assert DigitsValue("6") == 6;
    assert "+6"[1..] == "6" && "-6"[1..] == "6";
  }

  /** Text that is not a number gives no rotation. */
  lemma RotationOfRejects()
    ensures RotationOf(Some("")) == 0
    ensures RotationOf(Some("six")) == 0
  {
    assert !IsDigit('s');
  }

  /** A number too large for `int` gives no rotation, even one whose low 32
      bits are the 90-degree code. */
  lemma RotationOfOverflow()
    ensures RotationOf(Some("4294967302")) == 0
  {
    var s := "4294967302";
    assert s[..9] == "429496730" && s[..9][..8] == "42949673" && s[..9][..8][..7] == "4294967";
    assert DigitsValue("4294967") == 4294967 by {
      assert "4294967"[..6] == "429496";
      assert "429496"[..5] == "42949";
      assert "42949"[..4] == "4294";
      assert "4294"[..3] == "429";
      assert "429"[..2] == "42";
      assert "42"[..1] == "4";
    }
    assert DigitsValue(s) == 4294967302;
  }
}
