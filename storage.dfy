/**
 * The upload helpers of the storage library: the bucket names, the accepted content
 * types and size limits, the file-extension rule and the unique object name.
 * The clock (`Date.now()`) and the random part (`Math.random().toString(36)`) of a
 * generated name are parameters.
 */
module Storage {
  import opened Strings

  const ProfilePicturesBucket: string := "profile-pictures"
  const AdPhotosBucket: string := "ad-photos"
  const AdListingsBucket: string := "ad-listings"
  const AdDocumentsBucket: string := "ad-documents"
  const ClaimPhotosBucket: string := "claim-photos"

  const AllowedImageTypes: seq<string> := ["image/jpeg", "image/jpg", "image/png", "image/webp"]
  const AllowedDocumentTypes: seq<string> := [
    "application/pdf",
    "application/vnd.ms-excel",
    "application/vnd.openxmlformats-officedocument.spreadsheetml.sheet",
    "text/csv"]

  /** 10 MiB for documents. */
  const MaxFileSize: nat := 10 * 1024 * 1024
  /** 5 MiB for images. */
  const MaxImageSize: nat := 5 * 1024 * 1024

  lemma SizeLimits()
    ensures MaxImageSize == 5242880 && MaxFileSize == 10485760
    ensures MaxImageSize < MaxFileSize
  {
  }

  /**
   * The last piece of `filename.split('.')`: the text after the last `.`, or the whole
   * name when it has no `.`.
   */
  function LastSegment(s: string): (r: string)
    ensures '.' !in r
    ensures |r| <= |s| && r == s[|s| - |r|..]
    ensures |r| == |s| || s[|s| - |r| - 1] == '.'
  {
    if s == [] || s[|s| - 1] == '.' then []
    else LastSegment(s[..|s| - 1]) + [s[|s| - 1]]
  }

  /** A name without a `.` is its own last segment. */
  lemma {:induction false} LastSegmentNoDot(s: string)
    requires '.' !in s
    ensures LastSegment(s) == s
  {
    if s != [] {
      assert '.' !in s[..|s| - 1];
      LastSegmentNoDot(s[..|s| - 1]);
    }
  }

  /** Whatever precedes the last `.` does not matter. */
  lemma {:induction false} LastSegmentAfterDot(prefix: string, s: string)
    requires '.' !in s
    ensures LastSegment(prefix + ['.'] + s) == s
  {
    if s == [] {
    } else {
      var t := prefix + ['.'] + s;
      assert t[..|t| - 1] == prefix + ['.'] + s[..|s| - 1];
      assert '.' !in s[..|s| - 1];
      LastSegmentAfterDot(prefix, s[..|s| - 1]);
    }
  }

  /**
   * `getFileExtension`: the lower-cased text after the last `.`; empty for an empty
   * name or a name ending in `.`, the whole lower-cased name when there is no `.`.
   */
  function GetFileExtension(filename: string): (r: string)
    ensures '.' !in r
    ensures |r| <= |filename| && r == Lower(filename[|filename| - |r|..])
    ensures |r| == |filename| || filename[|filename| - |r| - 1] == '.'
  {
    var last := LastSegment(filename);
    LowerKeepsOthers(last, '.');
    Lower(last)
  }

  lemma FileExtensionCases(filename: string)
    ensures filename == [] ==> GetFileExtension(filename) == []
    ensures filename != [] && filename[|filename| - 1] == '.' ==> GetFileExtension(filename) == []
    ensures '.' !in filename ==> GetFileExtension(filename) == Lower(filename)
  {
    if '.' !in filename {
      LastSegmentNoDot(filename);
    }
  }

  /**
   * `generateUniqueFileName`: `userId/timestamp-random.ext`, where `ext` is the
   * extension of the original name.
   */
  function GenerateUniqueFileName(userId: string, originalFilename: string, timestamp: nat, random: string): (r: string)
    ensures StartsWith(r, userId + "/")
    ensures EndsWith(r, "." + GetFileExtension(originalFilename))
    ensures GetFileExtension(r) == GetFileExtension(originalFilename)
  {
    var ext := GetFileExtension(originalFilename);
    var middle := NatToString(timestamp) + "-" + random;
    ExtensionOfGenerated(userId + "/" + middle, originalFilename);
    GeneratedShape(userId + "/", middle, ext);
    userId + "/" + middle + ['.'] + ext
  }

  lemma GeneratedShape(prefix: string, middle: string, ext: string)
    ensures StartsWith(prefix + middle + ['.'] + ext, prefix)
    ensures EndsWith(prefix + middle + ['.'] + ext, "." + ext)
  {
    var r := prefix + middle + ['.'] + ext;
    assert r[..|prefix|] == prefix;
    assert r[|r| - |"." + ext|..] == "." + ext;
  }

  /** The extension survives renaming: the generated name ends in `.` followed by it, and it has no `.` of its own. */
  lemma ExtensionOfGenerated(stem: string, originalFilename: string)
    ensures GetFileExtension(stem + ['.'] + GetFileExtension(originalFilename)) == GetFileExtension(originalFilename)
  {
    var ext := GetFileExtension(originalFilename);
    LastSegmentAfterDot(stem, ext);
    var last := LastSegment(originalFilename);
    LowerIdempotent(last);
  }

  /** `validateFileType`: the content type is exactly one of the allowed ones. */
  predicate ValidateFileType(contentType: string, allowedTypes: seq<string>)
  {
    contentType in allowedTypes
  }

  /** `validateFileSize`: the bound is inclusive. */
  predicate ValidateFileSize(size: int, maxSize: int)
  {
    size <= maxSize
  }

  lemma ImageTypes(contentType: string)
    ensures ValidateFileType(contentType, AllowedImageTypes)
      <==> contentType in {"image/jpeg", "image/jpg", "image/png", "image/webp"}
    ensures !ValidateFileType("", AllowedImageTypes) && !ValidateFileType("image/gif", AllowedImageTypes)
  {
  }

  lemma DocumentTypes(contentType: string)
    ensures ValidateFileType(contentType, AllowedDocumentTypes)
      <==> contentType in {"application/pdf", "application/vnd.ms-excel",
                           "application/vnd.openxmlformats-officedocument.spreadsheetml.sheet", "text/csv"}
    ensures !ValidateFileType("", AllowedDocumentTypes) && !ValidateFileType("image/png", AllowedDocumentTypes)
  {
  }

  /** The size bound is inclusive: exactly the maximum passes, one byte more does not. */
  lemma SizeBoundInclusive(maxSize: int)
    ensures ValidateFileSize(maxSize, maxSize) && !ValidateFileSize(maxSize + 1, maxSize)
  {
  }
}
