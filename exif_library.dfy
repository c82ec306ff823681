/** The metadata library the helper delegates to (`ExifInterface`), reduced
    to what the helper observes: a container of named string attributes
    that can be read, updated and saved back to its file. */
module ExifLibrary {
  import opened Wrappers
  import opened ExifTags

  /** What `saveAttributes` reports: success, or the `IOException` it throws. */
  datatype IOResult = Ok | IOException

  /** The value stored under a name in an attribute map, `None` for none. */
  function Lookup(m: map<AttributeKey, string>, key: AttributeKey): (v: Option<string>)
    ensures v.Some? <==> key in m
    ensures v.Some? ==> m[key] == v.value
  {
    if key in m then Some(m[key]) else None
  }

  /** One opened image file's EXIF container. */
  class ExifInterface {
    /** The attributes as the container holds them in memory. */
    var attributes: map<AttributeKey, string>
    /** The attributes as the file on disk holds them. */
    var persisted: map<AttributeKey, string>
    /** How many times the container was saved. */
    var saveCount: nat
    /** Whether writing the file fails (a full or read-only disk). */
    const saveFails: bool

    /** Opening a file whose EXIF block holds `fileAttributes`. */
    constructor (fileAttributes: map<AttributeKey, string>, saveFails: bool)
      ensures attributes == fileAttributes && persisted == fileAttributes
      ensures saveCount == 0 && this.saveFails == saveFails
    {
      attributes := fileAttributes;
      persisted := fileAttributes;
      saveCount := 0;
      this.saveFails := saveFails;
    }

    /** `getAttribute(tag)`: the stored value, `null` when the tag is absent. */
    function GetAttribute(key: AttributeKey): (value: Option<string>)
      reads this
      ensures value.Some? <==> key in attributes
      ensures value.Some? ==> attributes[key] == value.value
    {
      Lookup(attributes, key)
    }

    /** `setAttribute(tag, value)` for a non-null value: stores it in memory. */
    method SetAttribute(key: AttributeKey, value: string)
      modifies this`attributes
      ensures attributes == old(attributes)[key := value]
      ensures GetAttribute(key) == Some(value)
    {
      attributes := attributes[key := value];
    }

    /** `saveAttributes()`: writes the in-memory attributes to the file, or
        throws `IOException` and leaves the file as it was. */
    method SaveAttributes() returns (result: IOResult)
      modifies this`persisted, this`saveCount
      ensures saveCount == old(saveCount) + 1
      ensures result == Ok <==> !saveFails
      ensures persisted == if saveFails then old(persisted) else attributes
    {
      saveCount := saveCount + 1;
      if saveFails {
        result := IOException;
      } else {
        persisted := attributes;
        result := Ok;
      }
    }
  }
}
