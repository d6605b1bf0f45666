/**
 * The multer configuration of the upload middleware: a per-file size limit and
 * a file filter that admits images and raw binary uploads. multer calls the
 * filter once per incoming file with a callback `cb(error, acceptFile)`; the
 * filter decides from the file's mimetype alone.
 */
module UploadMiddleware {
  import opened Wrappers

  /** The configured `limits.fileSize`: five mebibytes. */
  const FileSizeLimit: nat := 5 * 1024 * 1024

  const ImagePrefix: string := "image/"
  const OctetStream: string := "application/octet-stream"
  const OnlyImagesMessage: string := "Only images are allowed!"

  /** The fields of multer's file object that the filter looks at. */
  datatype UploadedFile = UploadedFile(originalName: string, mimetype: string)

  /** An `Error` object passed to the callback. */
  datatype UploadError = UploadError(message: string)

  /** One invocation `cb(error, acceptFile)`, with `null` as `None`. */
  datatype FilterCall = FilterCall(error: Option<UploadError>, acceptFile: bool)

  /** JavaScript's `s.startsWith(prefix)`: an exact, case-sensitive prefix test. */
  predicate StartsWith(s: string, prefix: string) {
    |prefix| <= |s| && s[..|prefix|] == prefix
  }

  /**
   * The `fileFilter` option. Its result is the single callback invocation the
   * filter makes: exactly one of "accept with no error" and "reject with the
   * fixed error", chosen by the mimetype.
   */
  function FileFilter(file: UploadedFile): (call: FilterCall)
    ensures call.acceptFile <==> ImagePrefix <= file.mimetype || file.mimetype == OctetStream
    ensures call.acceptFile ==> call.error == None
    ensures !call.acceptFile ==> call.error == Some(UploadError(OnlyImagesMessage))
  {
    if StartsWith(file.mimetype, ImagePrefix) || file.mimetype == OctetStream then
      FilterCall(None, true)
    else
      FilterCall(Some(UploadError(OnlyImagesMessage)), false)
  }

  /** The limit is 5242880 bytes. */
  lemma FileSizeLimitValue()
    ensures FileSizeLimit == 5242880
  {
  }

  /** Every `image/...` mimetype is accepted, whatever follows the slash. */
  lemma ImagesAccepted(name: string, subtype: string)
    ensures FileFilter(UploadedFile(name, ImagePrefix + subtype)) == FilterCall(None, true)
  {
    assert (ImagePrefix + subtype)[..|ImagePrefix|] == ImagePrefix;
  }

  /** Apart from images, the only accepted mimetype is exactly `application/octet-stream`. */
  lemma OnlyExactOctetStream(file: UploadedFile)
    requires FileFilter(file).acceptFile
    requires !StartsWith(file.mimetype, ImagePrefix)
    ensures file.mimetype == OctetStream
  {
  }

  /** Nothing that extends `application/octet-stream` is accepted. */
  lemma OctetStreamExtensionsRejected(name: string, suffix: string)
    requires suffix != ""
    ensures FileFilter(UploadedFile(name, OctetStream + suffix)).error == Some(UploadError(OnlyImagesMessage))
  {
    var m := OctetStream + suffix;
    assert m[0] == 'a';
    assert !(ImagePrefix <= m);
    assert |m| > |OctetStream|;
  }

  /** The prefix test is case-sensitive and needs the slash. */
  lemma PrefixIsExact(name: string, rest: string)
    ensures !FileFilter(UploadedFile(name, "IMAGE/" + rest)).acceptFile
    ensures !FileFilter(UploadedFile(name, "image")).acceptFile
    ensures !FileFilter(UploadedFile(name, "Image/" + rest)).acceptFile
  {
    assert ("IMAGE/" + rest)[0] == 'I';
    assert ("Image/" + rest)[0] == 'I';
  }
}
