/** The GPS text `setGpsCoordinates` produces: hemisphere letters and the
    EXIF rational form "degrees/1,minutes/1,milliseconds/1000" of a decimal
    coordinate. Java's `double` is modelled by `real`. */
module Gps {
  import opened Wrappers
  import opened JavaLang

  /** The latitude reference: north for zero and above, else south. */
  function LatitudeRef(latitude: real): (ref: string)
    ensures ref == "N" <==> latitude >= 0.0
    ensures ref == "S" <==> latitude < 0.0
  {
    if latitude >= 0.0 then "N" else "S"
  }

  /** The longitude reference: east for zero and above, else west. */
  function LongitudeRef(longitude: real): (ref: string)
    ensures ref == "E" <==> longitude >= 0.0
    ensures ref == "W" <==> longitude < 0.0
  {
    if longitude >= 0.0 then "E" else "W"
  }

  function Abs(x: real): (r: real)
    ensures r >= 0.0 && (r == x || r == -x)
  {
    if x >= 0.0 then x else -x
  }

  /** A coordinate as whole degrees, whole minutes and whole milliseconds
      of arc. */
  datatype Dms = Dms(degrees: int, minutes: int, milliseconds: int)

  /** The angle a `Dms` stands for, in degrees. */
  function DmsValue(d: Dms): real
  {
    d.degrees as real + d.minutes as real / 60.0 + d.milliseconds as real / 3600000.0
  }

  /** The conversion of `setGpsCoordinates`: the magnitude truncated to
      degrees, the remainder times 60 truncated to minutes, and what is
      left, in seconds, times 1000 truncated. Within the range of `int`,
      the parts are in range and the result undershoots the magnitude by
      less than one millisecond of arc. */
  function ToDms(coordinate: real): (d: Dms)
    ensures Abs(coordinate) < IntMax as real ==>
      && 0 <= d.degrees && 0 <= d.minutes < 60 && 0 <= d.milliseconds < 60000
      && DmsValue(d) <= Abs(coordinate) < DmsValue(d) + 1.0 / 3600000.0
  {
    var magnitude := Abs(coordinate);
    var degrees := TruncateToInt(magnitude);
    var minutes := TruncateToInt((magnitude - degrees as real) * 60.0);
    var seconds := (magnitude - degrees as real - minutes as real / 60.0) * 3600.0;
    Dms(degrees, minutes, TruncateToInt(seconds * 1000.0))
  }

  /** The text stored in the latitude and longitude tags: each part in
      decimal over its denominator, joined by commas. When the parts are
      `int`s it reads back to the `Dms` it was made from. */
  function DmsText(d: Dms): (text: string)
    ensures IsInt(d.degrees) && IsInt(d.minutes) && IsInt(d.milliseconds) ==> ParseDms(text) == Some(d)
  {
    ParseDmsOfParts(d);
    IntToString(d.degrees) + "/1," + IntToString(d.minutes) + "/1," + IntToString(d.milliseconds) + "/1000"
  }

  /** The text before the first `c`, and the text after it if there is one. */
  function SplitAt(s: string, c: char): (parts: (string, Option<string>))
    ensures c !in parts.0
    ensures parts.1.None? ==> parts.0 == s
    ensures parts.1.Some? ==> s == parts.0 + [c] + parts.1.value
  {
    if s == [] then ([], None)
    else if s[0] == c then ([], Some(s[1..]))
    else
      var rest := SplitAt(s[1..], c);
      assert rest.1.Some? ==> s == [s[0]] + s[1..];
      ([s[0]] + rest.0, rest.1)
  }

  /** Reads "n/den" back into n; `None` for a different denominator or a
      numerator `Integer.parseInt` rejects. */
  function ParseRational(s: string, den: string): Option<int>
  {
    var (numerator, rest) := SplitAt(s, '/');
    if rest != Some(den) then None else ParseInt(numerator)
  }

  /** Reads "a/1,b/1,c/1000" back into its three integers; `None` for text
      of any other shape. */
  function ParseDms(s: string): Option<Dms>
  {
    var (first, rest) := SplitAt(s, ',');
    if rest.None? then None
    else
      var (second, third) := SplitAt(rest.value, ',');
      if third.None? then None
      else
        match (ParseRational(first, "1"), ParseRational(second, "1"), ParseRational(third.value, "1000"))
        case (Some(a), Some(b), Some(c)) => Some(Dms(a, b, c))
        case _ => None
  }

  /** The decimal text of an `int` holds no separator of the rational form. */
  lemma IntToStringHasNoSeparator(n: int, c: char)
    requires c == '/' || c == ','
    ensures c !in IntToString(n)
  {
    if n < 0 {
      assert IntToString(n) == "-" + NatDigits(-n);
    }
  }

  /** Splitting `a + [c] + b` at `c` gives back `a` and `b` when `a` holds
      no `c`. */
  lemma {:induction false} SplitAtJoin(a: string, c: char, b: string)
    requires c !in a
    ensures SplitAt(a + [c] + b, c) == (a, Some(b))
  {
    if a != [] {
      assert (a + [c] + b)[1..] == a[1..] + [c] + b;
      SplitAtJoin(a[1..], c, b);
      assert [a[0]] + a[1..] == a;
    } else {
      assert (a + [c] + b)[1..] == b;
    }
  }

  /** "n/den" reads back to n for every `int` n. */
  lemma ParseRationalText(n: int, den: string)
    requires IsInt(n)
    ensures ParseRational(IntToString(n) + ['/'] + den, den) == Some(n)
  {
    IntToStringHasNoSeparator(n, '/');
    SplitAtJoin(IntToString(n), '/', den);
    ParseIntOfIntToString(n);
  }

  lemma ConcatAssociates(a: string, b: string, c: string)
    ensures a + "/1," + b + "/1," + c + "/1000" == (a + "/1") + [','] + ((b + "/1") + [','] + (c + "/1000"))
  {
  }

  /** Three parts joined by commas, each a rational with the expected
      denominator, read back to their numerators. */
  lemma ParseDmsJoin(first: string, second: string, third: string, d: Dms)
    requires ',' !in first && ',' !in second
    requires ParseRational(first, "1") == Some(d.degrees)
    requires ParseRational(second, "1") == Some(d.minutes)
    requires ParseRational(third, "1000") == Some(d.milliseconds)
    ensures ParseDms(first + [','] + (second + [','] + third)) == Some(d)
  {
    SplitAtJoin(first, ',', second + [','] + third);
    SplitAtJoin(second, ',', third);
  }

  /** The rational text of three `int`s reads back to them. */
  lemma ParseDmsOfParts(d: Dms)
    ensures IsInt(d.degrees) && IsInt(d.minutes) && IsInt(d.milliseconds) ==>
      ParseDms(IntToString(d.degrees) + "/1," + IntToString(d.minutes) + "/1," + IntToString(d.milliseconds) + "/1000")
        == Some(d)
  {
    if IsInt(d.degrees) && IsInt(d.minutes) && IsInt(d.milliseconds) {
      var a, b, c := IntToString(d.degrees), IntToString(d.minutes), IntToString(d.milliseconds);
      assert a + "/1" == a + ['/'] + "1";
      assert b + "/1" == b + ['/'] + "1";
      assert c + "/1000" == c + ['/'] + "1000";
      ParseRationalText(d.degrees, "1");
      ParseRationalText(d.minutes, "1");
      ParseRationalText(d.milliseconds, "1000");
      IntToStringHasNoSeparator(d.degrees, ',');
      IntToStringHasNoSeparator(d.minutes, ',');
      ConcatAssociates(a, b, c);
      ParseDmsJoin(a + "/1", b + "/1", c + "/1000", d);
    }
  }

  /** The longitude -122.4194, computed exactly: 122 degrees, 25 minutes
      and 9.840 seconds, west. */
  lemma ToDmsExample()
    ensures ToDms(-122.4194) == Dms(122, 25, 9840)
    ensures LongitudeRef(-122.4194) == "W"
  {
    assert Abs(-122.4194) == 122.4194;
    assert TruncateToInt(122.4194) == 122;
    assert TruncateToInt((122.4194 - 122.0) * 60.0) == 25;
    assert (122.4194 - 122.0 - 25.0 / 60.0) * 3600.0 * 1000.0 == 9840.0;
    assert TruncateToInt(9840.0) == 9840;
  }
}
