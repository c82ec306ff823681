/** The helper that carries a fixed set of EXIF tags from an image file to
    its compressed copy: a snapshot of 25 nullable string fields, read from
    a source container and written into a destination container, plus the
    orientation query and the GPS coordinate setter. */
module Exif {
  import opened Wrappers
  import opened JavaLang
  import opened ExifTags
  import opened ExifLibrary
  import opened Gps
  import opened Rotation

  /** Tag `t`'s field in a snapshot, `None` where the field is null. */
  function Get(snap: map<Tag, string>, t: Tag): (v: Option<string>)
    ensures v.Some? <==> t in snap
    ensures v.Some? ==> v.value == snap[t]
  {
    if t in snap then Some(snap[t]) else None
  }

  /** Two snapshots whose fields agree are the same snapshot. */
  lemma SnapshotsAgree(a: map<Tag, string>, b: map<Tag, string>)
    requires forall t :: Get(a, t) == Get(b, t)
    ensures a == b
  {
    forall t ensures t in a <==> t in b {
      assert Get(a, t) == Get(b, t);
    }
    forall t | t in a ensures a[t] == b[t] {
      assert Get(a, t) == Get(b, t);
    }
  }

  /** A snapshot with the field for `t` set to `value`; `None` sets it to
      null. Only that field changes. */
  function WithField(snap: map<Tag, string>, t: Tag, value: Option<string>): (r: map<Tag, string>)
    ensures Get(r, t) == value
    ensures forall u :: u != t ==> Get(r, u) == Get(snap, u)
  {
    if value.Some? then snap[t := value.value] else snap - {t}
  }

  /** The snapshot a read of `attributes` produces: each of the 25 tags the
      container holds, with its value. */
  function SnapshotOf(attributes: map<AttributeKey, string>): (snap: map<Tag, string>)
    ensures forall t :: Get(snap, t) == Lookup(attributes, TagKey(t))
  {
    map t: Tag | TagKey(t) in attributes :: attributes[TagKey(t)]
  }

  /** The attributes of a destination once a snapshot is written into it:
      each tag the snapshot holds (a non-null field) is set; a tag it lacks
      (a null field) keeps the destination's value, or stays absent; keys
      outside the 25 tags are untouched. */
  function MergeInto(dst: map<AttributeKey, string>, snap: map<Tag, string>): (merged: map<AttributeKey, string>)
    ensures forall t :: t in snap ==> Lookup(merged, TagKey(t)) == Some(snap[t])
    ensures forall t :: t !in snap ==> Lookup(merged, TagKey(t)) == Lookup(dst, TagKey(t))
    ensures forall name :: Lookup(merged, OtherKey(name)) == Lookup(dst, OtherKey(name))
  {
    dst + map t | t in snap :: TagKey(t) := snap[t]
  }

  /** Writing the same snapshot twice is writing it once. */
  lemma MergeIntoIdempotent(dst: map<AttributeKey, string>, snap: map<Tag, string>)
    ensures MergeInto(MergeInto(dst, snap), snap) == MergeInto(dst, snap)
  {
  }

  /** Reading a source and writing the snapshot into a destination copies
      every one of the 25 tags the source holds; a tag the source lacks
      keeps the destination's value; other keys keep theirs. */
  lemma TransferFidelity(src: map<AttributeKey, string>, dst: map<AttributeKey, string>)
    ensures forall t :: TagKey(t) in src ==> Lookup(MergeInto(dst, SnapshotOf(src)), TagKey(t)) == Lookup(src, TagKey(t))
    ensures forall t :: TagKey(t) !in src ==> Lookup(MergeInto(dst, SnapshotOf(src)), TagKey(t)) == Lookup(dst, TagKey(t))
    ensures forall name :: Lookup(MergeInto(dst, SnapshotOf(src)), OtherKey(name)) == Lookup(dst, OtherKey(name))
  {
    var snap := SnapshotOf(src);
    forall t ensures t in snap <==> TagKey(t) in src {
      assert Get(snap, t) == Lookup(src, TagKey(t));
    }
  }

  /** A destination that holds the snapshot's value for every tag the
      snapshot holds, and otherwise what it held before, is the merge of
      the snapshot into what it held before. */
  lemma MergedWhenEveryTagSet(attributes: map<AttributeKey, string>, before: map<AttributeKey, string>,
                              snap: map<Tag, string>)
    requires forall t :: Lookup(attributes, TagKey(t)) == if t in snap then Some(snap[t]) else Lookup(before, TagKey(t))
    requires forall name :: Lookup(attributes, OtherKey(name)) == Lookup(before, OtherKey(name))
    ensures attributes == MergeInto(before, snap)
  {
    var merged := MergeInto(before, snap);
    forall k ensures Lookup(attributes, k) == Lookup(merged, k) {
      match k
      case TagKey(t) =>
      case OtherKey(name) =>
    }
    forall k ensures k in attributes <==> k in merged {
      assert Lookup(attributes, k) == Lookup(merged, k);
    }
    forall k | k in attributes ensures attributes[k] == merged[k] {
      assert Lookup(attributes, k) == Lookup(merged, k);
    }
  }

  /** One `if (field != null) outFile.setAttribute(TAG, field)` statement. */
  method SetIfPresent(out: ExifInterface, t: Tag, value: Option<string>)
    modifies out`attributes
    ensures forall u :: Lookup(out.attributes, TagKey(u)) ==
              if u == t && value.Some? then value else Lookup(old(out.attributes), TagKey(u))
    ensures forall name :: Lookup(out.attributes, OtherKey(name)) == Lookup(old(out.attributes), OtherKey(name))
  {
    if value.Some? {
      out.SetAttribute(TagKey(t), value.value);
    }
  }

  /** Whether a snapshot holds both a latitude and a longitude. */
  function HasCoordinates(snap: map<Tag, string>): (r: bool)
    ensures r <==> Get(snap, GpsLatitude).Some? && Get(snap, GpsLongitude).Some?
  {
    GpsLatitude in snap && GpsLongitude in snap
  }

  /** Only the latitude and longitude fields decide `HasCoordinates`: the
      reference fields, the altitude and every other field may hold
      anything. */
  lemma HasCoordinatesIgnoresOtherFields(snap: map<Tag, string>, t: Tag, value: Option<string>)
    requires t != GpsLatitude && t != GpsLongitude
    ensures HasCoordinates(WithField(snap, t, value)) == HasCoordinates(snap)
  {
  }

  /** A snapshot with the four GPS coordinate fields set to the given
      texts; every other field as before. */
  function WithGpsFields(snap: map<Tag, string>, latitude: string, longitude: string,
                         latitudeRef: string, longitudeRef: string): (r: map<Tag, string>)
    ensures Get(r, GpsLatitude) == Some(latitude)
    ensures Get(r, GpsLongitude) == Some(longitude)
    ensures Get(r, GpsLatitudeRef) == Some(latitudeRef)
    ensures Get(r, GpsLongitudeRef) == Some(longitudeRef)
    ensures forall t :: t != GpsLatitude && t != GpsLongitude && t != GpsLatitudeRef && t != GpsLongitudeRef ==>
                        Get(r, t) == Get(snap, t)
    ensures HasCoordinates(r)
  {
    snap[GpsLatitude := latitude][GpsLongitude := longitude][GpsLatitudeRef := latitudeRef][GpsLongitudeRef := longitudeRef]
  }

  /** The snapshot after `setGpsCoordinates(latitude, longitude)`: the
      hemisphere letters of both coordinates, and their rational
      degrees/minutes/seconds text, which reads back to the `ToDms` of each
      coordinate; every other field as before. */
  function WithCoordinates(snap: map<Tag, string>, latitude: real, longitude: real): (r: map<Tag, string>)
    ensures Get(r, GpsLatitudeRef) == Some(LatitudeRef(latitude))
    ensures Get(r, GpsLongitudeRef) == Some(LongitudeRef(longitude))
    ensures Get(r, GpsLatitude) == Some(DmsText(ToDms(latitude)))
    ensures Get(r, GpsLongitude) == Some(DmsText(ToDms(longitude)))
    ensures forall t :: t != GpsLatitude && t != GpsLongitude && t != GpsLatitudeRef && t != GpsLongitudeRef ==>
                        Get(r, t) == Get(snap, t)
  {
    WithGpsFields(snap, DmsText(ToDms(latitude)), DmsText(ToDms(longitude)), LatitudeRef(latitude), LongitudeRef(longitude))
  }

  /** The coordinate text `setGpsCoordinates` stores reads back to the
      degrees, minutes and milliseconds it was made from. */
  lemma WithCoordinatesReadsBack(snap: map<Tag, string>, latitude: real, longitude: real)
    ensures ParseDms(WithCoordinates(snap, latitude, longitude)[GpsLatitude]) == Some(ToDms(latitude))
    ensures ParseDms(WithCoordinates(snap, latitude, longitude)[GpsLongitude]) == Some(ToDms(longitude))
  {
    var lat, lon := ToDms(latitude), ToDms(longitude);
    assert IsInt(lat.degrees) && IsInt(lat.minutes) && IsInt(lat.milliseconds);
    assert IsInt(lon.degrees) && IsInt(lon.minutes) && IsInt(lon.milliseconds);
  }

  class ExifHelper {
    /** The 25 nullable snapshot fields, one per tag: a tag is in the map
        exactly when its field is non-null, and maps to the field's value. */
    var fields: map<Tag, string>

    /** The containers bound by `createInFile` and `createOutFile`. */
    var inFile: ExifInterface?
    var outFile: ExifInterface?

    /** A new helper: every field null, no file bound. */
    constructor ()
      ensures fields == map[]
      ensures inFile == null && outFile == null
    {
      fields := map[];
      inFile := null;
      outFile := null;
    }

    /** `createInFile`: binds the opened source container. */
    method CreateInFile(file: ExifInterface)
      modifies this`inFile
      ensures inFile == file
    {
      inFile := file;
    }

    /** `createOutFile`: binds the opened destination container. */
    method CreateOutFile(file: ExifInterface)
      modifies this`outFile
      ensures outFile == file
    {
      outFile := file;
    }

    /** Five consecutive statements `this.field = inFile.getAttribute(TAG)`
        of `readExifData`, for the tags `a` to `e` in that order. */
    method ReadTags(a: Tag, b: Tag, c: Tag, d: Tag, e: Tag)
      requires inFile != null
      modifies this`fields
      ensures forall t :: Get(fields, t) ==
                if t in {a, b, c, d, e} then inFile.GetAttribute(TagKey(t)) else Get(old(fields), t)
    {
      fields := WithField(fields, a, inFile.GetAttribute(TagKey(a)));
      fields := WithField(fields, b, inFile.GetAttribute(TagKey(b)));
      fields := WithField(fields, c, inFile.GetAttribute(TagKey(c)));
      fields := WithField(fields, d, inFile.GetAttribute(TagKey(d)));
      fields := WithField(fields, e, inFile.GetAttribute(TagKey(e)));
    }

    /** `readExifData`: every field is overwritten, in order, with the
        source's value for its tag, `null` where the source lacks the tag,
        so nothing the snapshot held before survives. */
    method ReadExifData()
      requires inFile != null
      modifies this`fields
      ensures fields == SnapshotOf(inFile.attributes)
      ensures forall t :: Get(fields, t) == inFile.GetAttribute(TagKey(t))
    {
      ReadTags(FNumber, DateTime, DateTimeOriginal, ExposureTime, Flash);
      ReadTags(FocalLength, GpsAltitude, GpsAltitudeRef, GpsDateStamp, GpsLatitude);
      ReadTags(GpsLatitudeRef, GpsLongitude, GpsLongitudeRef, GpsProcessingMethod, GpsTimestamp);
      ReadTags(IsoSpeedRatings, Make, Model, Orientation, WhiteBalance);
      ReadTags(Software, Artist, Copyright, ImageDescription, UserComment);
      forall t ensures Get(fields, t) == inFile.GetAttribute(TagKey(t)) {
        AllTagsComplete(t);
      }
      SnapshotsAgree(fields, SnapshotOf(inFile.attributes));
    }

    /** Five consecutive guarded statements of `writeExifData`, for the
        tags `a` to `e` in that order: each of them whose field is non-null
        is set in the destination. */
    method SetTagsIfPresent(out: ExifInterface, a: Tag, b: Tag, c: Tag, d: Tag, e: Tag)
      modifies out`attributes
      ensures forall t :: Lookup(out.attributes, TagKey(t)) ==
                if t in {a, b, c, d, e} && Get(fields, t).Some? then Get(fields, t) else Lookup(old(out.attributes), TagKey(t))
      ensures forall name :: Lookup(out.attributes, OtherKey(name)) == Lookup(old(out.attributes), OtherKey(name))
    {
      SetIfPresent(out, a, Get(fields, a));
      SetIfPresent(out, b, Get(fields, b));
      SetIfPresent(out, c, Get(fields, c));
      SetIfPresent(out, d, Get(fields, d));
      SetIfPresent(out, e, Get(fields, e));
    }

    /** The 25 guarded `setAttribute` statements of `writeExifData`, in
        order: each non-null field is set in the destination. */
    method WriteTags(out: ExifInterface)
      modifies out`attributes
      ensures out.attributes == MergeInto(old(out.attributes), fields)
    {
      ghost var before := out.attributes;
      SetTagsIfPresent(out, FNumber, DateTime, DateTimeOriginal, ExposureTime, Flash);
      SetTagsIfPresent(out, FocalLength, GpsAltitude, GpsAltitudeRef, GpsDateStamp, GpsLatitude);
      SetTagsIfPresent(out, GpsLatitudeRef, GpsLongitude, GpsLongitudeRef, GpsProcessingMethod, GpsTimestamp);
      SetTagsIfPresent(out, IsoSpeedRatings, Make, Model, Orientation, WhiteBalance);
      SetTagsIfPresent(out, Software, Artist, Copyright, ImageDescription, UserComment);
      forall t ensures Lookup(out.attributes, TagKey(t)) ==
                         if t in fields then Some(fields[t]) else Lookup(before, TagKey(t)) {
        AllTagsComplete(t);
      }
      MergedWhenEveryTagSet(out.attributes, before, fields);
    }

    /** `writeExifData`: with no destination bound, nothing happens; else
        each non-null field is set in the destination, in order, and the
        destination is saved once, after every tag is set. The snapshot is
        left as it was. */
    method WriteExifData() returns (result: IOResult)
      modifies outFile
      ensures outFile == null ==> result == Ok
      ensures outFile != null ==>
        && outFile.attributes == MergeInto(old(outFile.attributes), fields)
        && outFile.saveCount == old(outFile.saveCount) + 1
        && outFile.persisted == (if outFile.saveFails then old(outFile.persisted) else outFile.attributes)
        && (result == Ok <==> !outFile.saveFails)
      ensures fields == old(fields)
    {
      var out := outFile;
      if out == null {
        return Ok;
      }
      WriteTags(out);
      result := out.SaveAttributes();
    }

    /** `getOrientation`: the rotation the stored orientation value
        stands for. */
    function GetOrientation(): (degrees: int)
      reads this
      ensures degrees in {0, 90, 180, 270}
      ensures degrees == 90 <==> Orientation in fields && ParseInt(fields[Orientation]) == Some(OrientationRotate90)
      ensures degrees == 180 <==> Orientation in fields && ParseInt(fields[Orientation]) == Some(OrientationRotate180)
      ensures degrees == 270 <==> Orientation in fields && ParseInt(fields[Orientation]) == Some(OrientationRotate270)
    {
      RotationOf(Get(fields, Orientation))
    }

    /** `resetOrientation`: stores the normal code, as text, and changes
        no other field, so the helper then reports no rotation. */
    method ResetOrientation()
      modifies this`fields
      ensures fields == WithField(old(fields), Orientation, Some("1"))
      ensures GetOrientation() == 0
    {
      fields := fields[Orientation := IntToString(OrientationNormal)];
      RotationOfNormal();
    }

    /** `hasGpsData`: whether the snapshot holds both a latitude and a
        longitude. */
    function HasGpsData(): (r: bool)
      reads this
      ensures r <==> GetGpsLatitude().Some? && GetGpsLongitude().Some?
    {
      HasCoordinates(fields)
    }

    /** `getGpsLatitude`: the latitude field, `null` for none. */
    function GetGpsLatitude(): (value: Option<string>)
      reads this
      ensures value.Some? <==> GpsLatitude in fields
      ensures value.Some? ==> value.value == fields[GpsLatitude]
    {
      Get(fields, GpsLatitude)
    }

    /** `getGpsLongitude`: the longitude field, `null` for none. */
    function GetGpsLongitude(): (value: Option<string>)
      reads this
      ensures value.Some? <==> GpsLongitude in fields
      ensures value.Some? ==> value.value == fields[GpsLongitude]
    {
      Get(fields, GpsLongitude)
    }

    /** `getGpsLatitudeRef`: the latitude reference field, `null` for none. */
    function GetGpsLatitudeRef(): (value: Option<string>)
      reads this
      ensures value.Some? <==> GpsLatitudeRef in fields
      ensures value.Some? ==> value.value == fields[GpsLatitudeRef]
    {
      Get(fields, GpsLatitudeRef)
    }

    /** `getGpsLongitudeRef`: the longitude reference field, `null` for none. */
    function GetGpsLongitudeRef(): (value: Option<string>)
      reads this
      ensures value.Some? <==> GpsLongitudeRef in fields
      ensures value.Some? ==> value.value == fields[GpsLongitudeRef]
    {
      Get(fields, GpsLongitudeRef)
    }

    /** `setGpsCoordinates`: stores the rational degrees/minutes/seconds
        text of both coordinates and their hemisphere letters, in that
        order, and changes nothing else; the getters then return the new
        values and the helper has GPS data. */
    method SetGpsCoordinates(latitude: real, longitude: real)
      modifies this`fields
      ensures fields == WithCoordinates(old(fields), latitude, longitude)
      ensures GetGpsLatitudeRef() == Some(LatitudeRef(latitude))
      ensures GetGpsLongitudeRef() == Some(LongitudeRef(longitude))
      ensures GetGpsLatitude() == Some(DmsText(ToDms(latitude)))
      ensures GetGpsLongitude() == Some(DmsText(ToDms(longitude)))
      ensures HasGpsData()
    {
      StoreCoordinates(DmsText(ToDms(latitude)), DmsText(ToDms(longitude)), LatitudeRef(latitude), LongitudeRef(longitude));
    }

    /** The four assignments that end `setGpsCoordinates`, in order:
        latitude, longitude, then their references. */
    method StoreCoordinates(latitude: string, longitude: string, latitudeRef: string, longitudeRef: string)
      modifies this`fields
      ensures fields == WithGpsFields(old(fields), latitude, longitude, latitudeRef, longitudeRef)
    {
      fields := fields[GpsLatitude := latitude];
      fields := fields[GpsLongitude := longitude];
      fields := fields[GpsLatitudeRef := latitudeRef];
      fields := fields[GpsLongitudeRef := longitudeRef];
    }
  }
}
