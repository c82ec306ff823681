# ExifHelper in Dafny

A model of the camera plugin's `ExifHelper` (`src/android/ExifHelper.java`).
The helper carries a fixed set of 25 EXIF tags from a photo to its
compressed copy. `readExifData` copies the 25 tags of the source container
into their fields; a tag the container lacks leaves its field null. `writeExifData` sets each non-null field in
the destination container and then saves it once. The helper also answers
`getOrientation`, stores a normal orientation with `resetOrientation`,
writes GPS coordinates with `setGpsCoordinates`, and reads them back through
`hasGpsData` and four getters.

Files:

- `wrappers.dfy`: `Option`, which stands for a nullable Java reference.
- `java_lang.dfy`: the `java.lang` behaviour the helper relies on.
  - 32-bit `int`.
  - `Integer.parseInt`, with `None` for `NumberFormatException`.
  - `"" + n` for an `int`.
  - The `(int)` cast of a floating-point value.
  - The round trip `ParseInt(IntToString(n)) == Some(n)`.
- `exif_tags.dfy`: the 25 tags and the attribute keys of a container.
- `exif_library.dfy`: the part of the library's `ExifInterface` that the helper observes. It is a class holding:
  - the in-memory attributes;
  - the attributes saved on disk;
  - a save counter;
  - whether saving fails.
- `gps.dfy`:
  - the hemisphere letters;
  - the degrees/minutes/milliseconds conversion;
  - the rational text the helper stores;
  - a parser for that text, with the round trip proved.
- `rotation.dfy`: how `getOrientation` maps the stored orientation text to degrees.
- `exif_helper.dfy`: the helper itself, as the class `ExifHelper`.
  - Its 25 fields are held as one map from tag to value. A tag is present exactly when its field is non-null.
  - Around the class are the functions that specify its methods: snapshot, merge and GPS update.

Two containers are modelled as maps from `AttributeKey` to string:

- `inFile` is the source, which `readExifData` reads.
- `outFile` is the destination, which `writeExifData` writes.

A key is either one of the 25 tags or some other attribute name.

## Model

| member | source | states |
|---|---|---|
| Exif.ExifHelper.constructor | src/android/ExifHelper.java:30-57 | A new helper has every field null and no container bound. |
| Exif.ExifHelper.CreateInFile | src/android/ExifHelper.java:65-67 | Binds the source container and changes nothing else. |
| Exif.ExifHelper.CreateOutFile | src/android/ExifHelper.java:75-77 | Binds the destination container and changes nothing else. |
| Exif.Get | src/android/ExifHelper.java:30-54 | A field is null exactly when its tag is absent from the snapshot; otherwise it holds the tag's value. |
| Exif.WithField | src/android/ExifHelper.java:83 | Assigning one field, possibly to null, changes that field to the new value and leaves all 24 others unchanged. |
| ExifLibrary.ExifInterface.constructor | src/android/ExifHelper.java:66 | `new ExifInterface(filePath)` for a file whose EXIF block holds the given attributes: memory and disk both hold them, and nothing has been saved yet. |
| ExifLibrary.ExifInterface.GetAttribute | src/android/ExifHelper.java:83 | `getAttribute` returns null exactly when the container lacks the tag; otherwise it returns the stored value. |
| ExifLibrary.ExifInterface.SetAttribute | src/android/ExifHelper.java:122 | `setAttribute` stores the value under the key and changes no other key. |
| ExifLibrary.ExifInterface.SaveAttributes | src/android/ExifHelper.java:197 | Each save increments the save count. A successful save writes the in-memory attributes to disk. A failing save throws `IOException` and leaves the disk as it was. |
| Exif.SnapshotOf | src/android/ExifHelper.java:82-108 | The snapshot a read produces: each tag's field is the source's value for that tag, or null when the source lacks it. |
| Exif.ExifHelper.ReadTags | src/android/ExifHelper.java:83-107 | Five consecutive assignments of `readExifData`. Each of the five fields gets the source's value or null, and every other field is unchanged. |
| Exif.ExifHelper.ReadExifData | src/android/ExifHelper.java:82-108 | Every field is overwritten by the source's value for its tag, or by null. So the snapshot equals `SnapshotOf(source)`, and nothing it held before survives. |
| Exif.SetIfPresent | src/android/ExifHelper.java:121-123 | One guarded `setAttribute`. A non-null value is stored under its tag. A null value leaves the destination unchanged, and so does any other key. |
| Exif.ExifHelper.SetTagsIfPresent | src/android/ExifHelper.java:121-195 | Five consecutive guarded statements. Each of the five tags whose field is non-null takes the field's value. Every other tag and every other key keeps its value. |
| Exif.ExifHelper.WriteTags | src/android/ExifHelper.java:121-195 | After all 25 guarded statements, the destination is the old destination merged with the snapshot. |
| Exif.MergeInto | src/android/ExifHelper.java:121-195 | The destination after the guarded writes: every non-null field is set in it. A tag whose field is null keeps the destination's value, or stays absent. Keys outside the 25 tags are untouched. |
| Exif.MergedWhenEveryTagSet | src/android/ExifHelper.java:121-195 | A destination in which every tag holds the snapshot's value, or else its old value, and in which other keys are unchanged, equals the merge. |
| Exif.MergeIntoIdempotent | src/android/ExifHelper.java:121-195 | Writing the same snapshot twice gives the same attributes as writing it once. |
| Exif.ExifHelper.WriteExifData | src/android/ExifHelper.java:115-198 | With no destination, nothing happens. With a destination, its attributes become the merge with the snapshot. It is saved exactly once, after every tag is set. The result is `IOException` exactly when saving fails. The snapshot is unchanged. |
| Exif.TransferFidelity | src/android/ExifHelper.java:82-198 | Reading a source and then writing into a destination copies every one of the 25 tags the source holds. Tags the source lacks keep the destination's value, and so do all other keys. |
| JavaLang.ParseInt | src/android/ExifHelper.java:206 | `Integer.parseInt` accepts an optional sign followed by at least one digit. For plain digits and for `+` digits it returns the digits' value, and for `-` digits its negation, when that value fits in an `int`; otherwise it rejects the text. Any accepted text is of that shape and gives an `int`. |
| JavaLang.IntToString | src/android/ExifHelper.java:226 | `"" + n` is the canonical decimal text: a minus sign exactly when `n` is negative, then digits with no leading zero except for "0" itself. With the read-back lemma this fixes the text for every `int`. |
| JavaLang.DigitsValueOfNatDigits | src/android/ExifHelper.java:226 | The digits of a natural number read back to that number. |
| JavaLang.ParseIntOfDigits | src/android/ExifHelper.java:206 | The digits of a natural number within `int` range parse back to that number. |
| JavaLang.ParseIntOfMinusDigits | src/android/ExifHelper.java:206 | A minus sign followed by the digits of a positive number within `int` range parses back to its negation. |
| JavaLang.ParseIntOfIntToString | src/android/ExifHelper.java:206 | `Integer.parseInt` reads back the decimal text of every `int`. |
| Rotation.RotationOf | src/android/ExifHelper.java:200-223 | The rotation is always 0, 90, 180 or 270. It is 90, 180 or 270 exactly when the text parses to code 6, 3 or 8 respectively. Every other case gives 0: null, unparsable text, code 1, or any other number. |
| Rotation.RotationOfCodes | src/android/ExifHelper.java:200-218 | Null gives 0, "1" gives 0, "6" gives 90, "3" gives 180, "8" gives 270, and an unknown code gives 0. |
| Rotation.RotationOfSigns | src/android/ExifHelper.java:206-216 | "+6" parses to 6 and gives 90. "-6" gives 0. |
| Rotation.RotationOfRejects | src/android/ExifHelper.java:219-222 | Empty or non-numeric text makes the parse fail, and the rotation is 0. |
| Rotation.RotationOfOverflow | src/android/ExifHelper.java:206-222 | A number beyond `int` is rejected rather than wrapped, even when its low 32 bits are code 6, so the rotation is 0. |
| Exif.ExifHelper.GetOrientation | src/android/ExifHelper.java:200-223 | The result is always 0, 90, 180 or 270. It is 90, 180 or 270 exactly when the orientation field is non-null and parses to 6, 3 or 8 respectively. |
| Rotation.RotationOfNormal | src/android/ExifHelper.java:225-226 | The text `resetOrientation` stores reads as no rotation. |
| Exif.ExifHelper.ResetOrientation | src/android/ExifHelper.java:225-227 | The orientation field becomes "1", every other field is unchanged, and `getOrientation` then returns 0. |
| Exif.HasCoordinates | src/android/ExifHelper.java:233-235 | True exactly when both the latitude and the longitude fields are non-null. |
| Exif.HasCoordinatesIgnoresOtherFields | src/android/ExifHelper.java:233-235 | Changing any field other than latitude or longitude, the reference fields included, leaves the answer unchanged. |
| Exif.ExifHelper.HasGpsData | src/android/ExifHelper.java:233-235 | True exactly when both the latitude getter and the longitude getter return non-null. |
| Gps.LatitudeRef | src/android/ExifHelper.java:244 | "N" exactly when the latitude is at least 0, and "S" exactly when it is negative. |
| Gps.LongitudeRef | src/android/ExifHelper.java:245 | "E" exactly when the longitude is at least 0, and "W" exactly when it is negative. |
| JavaLang.TruncateToInt | src/android/ExifHelper.java:252-253 | The `(int)` cast always yields an `int`. It rounds toward zero to within less than 1, and saturates at the bounds. |
| Gps.ToDms | src/android/ExifHelper.java:248-258 | For a magnitude within `int` range: degrees are at least 0, minutes lie in [0, 60), and milliseconds lie in [0, 60000). The parts undershoot the magnitude by less than one millisecond of arc. |
| Gps.ToDmsExample | src/android/ExifHelper.java:245-258 | The longitude -122.4194, computed exactly, is 122 degrees, 25 minutes and 9840 milliseconds, west. |
| Gps.Abs | src/android/ExifHelper.java:248-249 | `Math.abs`: the result is non-negative and is either the argument or its negation. |
| Gps.DmsText | src/android/ExifHelper.java:261-262 | The text "d/1,m/1,ms/1000" of three `int`s reads back, through `ParseDms`, to the degrees, minutes and milliseconds it was built from. |
| Gps.ParseDmsOfParts | src/android/ExifHelper.java:261-262 | The decimal texts of three `int`s, each over its denominator and joined by commas, parse back to those three `int`s. |
| Exif.WithGpsFields | src/android/ExifHelper.java:261-264 | The four GPS coordinate fields hold the given texts, every other field is unchanged, and the snapshot then has coordinates. |
| Exif.WithCoordinates | src/android/ExifHelper.java:242-264 | The snapshot after `setGpsCoordinates`: latitude and longitude hold the DMS text of each coordinate, the references hold the hemisphere letters, and every other field is unchanged. |
| Exif.ExifHelper.StoreCoordinates | src/android/ExifHelper.java:261-264 | The four assignments at the end of `setGpsCoordinates` set exactly the four coordinate fields. |
| Exif.WithCoordinatesReadsBack | src/android/ExifHelper.java:261-262 | The latitude and longitude texts `setGpsCoordinates` stores parse back to the `ToDms` of each coordinate. |
| Exif.ExifHelper.SetGpsCoordinates | src/android/ExifHelper.java:242-268 | Only the four coordinate fields change: the DMS texts and the hemisphere letters. The getters then return the new values, `hasGpsData` holds, and neither container is touched. |
| Exif.ExifHelper.GetGpsLatitude | src/android/ExifHelper.java:274-276 | Null exactly when the latitude field is null; otherwise the field's value. |
| Exif.ExifHelper.GetGpsLongitude | src/android/ExifHelper.java:282-284 | Null exactly when the longitude field is null; otherwise the field's value. |
| Exif.ExifHelper.GetGpsLatitudeRef | src/android/ExifHelper.java:290-292 | Null exactly when the latitude reference field is null; otherwise the field's value. |
| Exif.ExifHelper.GetGpsLongitudeRef | src/android/ExifHelper.java:298-300 | Null exactly when the longitude reference field is null; otherwise the field's value. |

## Left out

- Opening files: `createInFile` and `createOutFile` bind an already-opened container. The file path, the parsing of the image file and the `IOException` on open are not modelled.
- `readExifData` with no source bound throws `NullPointerException` in Java. `Exif.ExifHelper.ReadExifData` requires a bound source instead.
- The library's `TAG_...` string values and its handling of values (validation, reformatting by tag type) are not modelled. Each of the 25 constants is a distinct key, no other attribute name equals one of them, and `setAttribute` stores the value as given.
- The `IOException` that `saveAttributes` throws out of `writeExifData` is the result value `IOException`. Whether saving fails is a fixed property of the container, since the disk is outside the model.
- Logging (`LOG.w` in `getOrientation` and `LOG.d` in `setGpsCoordinates`) has no effect on state and is left out.
- Gps.ToDms: the arithmetic is exact `real` arithmetic, not IEEE `double`. The main difference is that a `real` coordinate need not be a `double` value: for -122.4194 the model computes the parts exactly from that decimal and gives (`Gps.ToDmsExample`) 122 degrees, 25 minutes and 9840 milliseconds, while Java starts from the nearest `double` and gives 9839 milliseconds. The difference is not limited to the last millisecond: it can carry into the minutes, as for 10.1, where the exact computation gives 6 minutes and 0 milliseconds while `double` arithmetic can give 5 minutes and 59999 milliseconds. Rounding of the intermediate products, NaN and infinities are not modelled either, and the error bound holds for the exact computation.
- JavaLang.ParseInt: accepts only ASCII digits. `Integer.parseInt` also accepts other Unicode decimal digits.
- The 25 fields form one map in the model, not 25 separate variables. Field `aperture` is tag `FNumber` and field `iso` is tag `IsoSpeedRatings`.
- `readExifData` and `writeExifData` run their 25 statements in groups of five (`ReadTags` and `SetTagsIfPresent`), still in source order. The final state is proved, not the order of the intermediate `setAttribute` calls. Because the 25 keys are distinct, the order does not affect that state.
