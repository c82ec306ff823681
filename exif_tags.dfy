/** The 25 EXIF tags that the helper copies, and the keys under which the
    metadata library stores attributes. */
module ExifTags {

  /** One constructor per snapshot field of the helper, in declaration
      order; each stands for the library's `ExifInterface.TAG_...` constant
      named beside it. */
  datatype Tag =
    | FNumber              // TAG_F_NUMBER, field `aperture`
    | DateTime             // TAG_DATETIME
    | DateTimeOriginal     // TAG_DATETIME_ORIGINAL
    | ExposureTime         // TAG_EXPOSURE_TIME
    | Flash                // TAG_FLASH
    | FocalLength          // TAG_FOCAL_LENGTH
    | GpsAltitude          // TAG_GPS_ALTITUDE
    | GpsAltitudeRef       // TAG_GPS_ALTITUDE_REF
    | GpsDateStamp         // TAG_GPS_DATESTAMP
    | GpsLatitude          // TAG_GPS_LATITUDE
    | GpsLatitudeRef       // TAG_GPS_LATITUDE_REF
    | GpsLongitude         // TAG_GPS_LONGITUDE
    | GpsLongitudeRef      // TAG_GPS_LONGITUDE_REF
    | GpsProcessingMethod  // TAG_GPS_PROCESSING_METHOD
    | GpsTimestamp         // TAG_GPS_TIMESTAMP
    | IsoSpeedRatings      // TAG_ISO_SPEED_RATINGS, field `iso`
    | Make                 // TAG_MAKE
    | Model                // TAG_MODEL
    | Orientation          // TAG_ORIENTATION
    | WhiteBalance         // TAG_WHITE_BALANCE
    | Software             // TAG_SOFTWARE
    | Artist               // TAG_ARTIST
    | Copyright            // TAG_COPYRIGHT
    | ImageDescription     // TAG_IMAGE_DESCRIPTION
    | UserComment          // TAG_USER_COMMENT

  /** The library's codes for the values of the Orientation tag (the
      Orientation field of TIFF 6.0, section 8, which Exif reuses). */
  const OrientationNormal: int := 1
  const OrientationRotate180: int := 3
  const OrientationRotate90: int := 6
  const OrientationRotate270: int := 8

  /** Every tag. */
  const AllTags: set<Tag> := {
    FNumber, DateTime, DateTimeOriginal, ExposureTime, Flash, FocalLength,
    GpsAltitude, GpsAltitudeRef, GpsDateStamp, GpsLatitude, GpsLatitudeRef,
    GpsLongitude, GpsLongitudeRef, GpsProcessingMethod, GpsTimestamp,
    IsoSpeedRatings, Make, Model, Orientation, WhiteBalance, Software,
    Artist, Copyright, ImageDescription, UserComment }

  /** `AllTags` leaves none out. */
  lemma AllTagsComplete(t: Tag)
    ensures t in AllTags
  {
  }

  /** The key of an attribute in a container: one of the 25 tags, or any
      other attribute name. Distinct `TAG_...` constants name distinct
      attributes, and an `OtherKey` never spells one of them. */
  datatype AttributeKey = TagKey(tag: Tag) | OtherKey(name: string)
}
