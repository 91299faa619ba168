/**
 * The two upload endpoints (images and documents), after authentication: the
 * admission decision on the parsed multipart form, the bucket and object name chosen
 * for an admitted file, and the answer once the storage service has replied.
 * Both endpoints share one decision, parameterised by the kind of upload.
 */
module Upload {
  import opened Wrappers
  import opened Strings
  import opened Storage

  datatype UploadKind = ImageUpload | DocumentUpload

  function AllowedTypes(kind: UploadKind): seq<string>
  {
    match kind
    case ImageUpload => AllowedImageTypes
    case DocumentUpload => AllowedDocumentTypes
  }

  function MaxSize(kind: UploadKind): nat
  {
    match kind
    case ImageUpload => MaxImageSize
    case DocumentUpload => MaxFileSize
  }

  /** The `type` form field when it is absent or empty. */
  function DefaultType(kind: UploadKind): string
  {
    match kind
    case ImageUpload => "ad"
    case DocumentUpload => "document"
  }

  /** The original file name when the client sent none. */
  function DefaultName(kind: UploadKind): string
  {
    match kind
    case ImageUpload => "image.jpg"
    case DocumentUpload => "document.pdf"
  }

  /** Images go to the profile bucket for `type = profile`, documents to the listing bucket for `type = listing`. */
  function Bucket(kind: UploadKind, fileType: string): (r: string)
    ensures kind == ImageUpload ==> (r == ProfilePicturesBucket <==> fileType == "profile")
    ensures kind == ImageUpload ==> (r == AdPhotosBucket <==> fileType != "profile")
    ensures kind == DocumentUpload ==> (r == AdListingsBucket <==> fileType == "listing")
    ensures kind == DocumentUpload ==> (r == AdDocumentsBucket <==> fileType != "listing")
  {
    match kind
    case ImageUpload => if fileType == "profile" then ProfilePicturesBucket else AdPhotosBucket
    case DocumentUpload => if fileType == "listing" then AdListingsBucket else AdDocumentsBucket
  }

  const NoFileMessage: string := "Aucun fichier fourni"
  const UploadErrorMessage: string := "Erreur lors de l'upload"

  function TypeRefusedMessage(kind: UploadKind): string
  {
    match kind
    case ImageUpload => "Type de fichier non autorisé. Utilisez JPG, PNG ou WebP."
    case DocumentUpload => "Type de fichier non autorisé. Utilisez PDF, Excel ou CSV."
  }

  function SizeRefusedMessage(kind: UploadKind): string
  {
    match kind
    case ImageUpload => "Fichier trop volumineux. Taille maximale: 5MB."
    case DocumentUpload => "Fichier trop volumineux. Taille maximale: 10MB."
  }

  /** A file part of the multipart form, as the form parser describes it. */
  datatype UploadedFile = UploadedFile(mimetype: Option<string>, size: nat, originalFilename: Option<string>)

  /** The first `file` part and the first `type` field of the form, when present. */
  datatype Form = Form(file: Option<UploadedFile>, fileType: Option<string>)

  /** Either the answer is decided before any storage call, or the file is to be stored. */
  datatype Admission =
    | Refused(status: nat, error: string)
    | Admitted(bucket: string, path: string, contentType: Option<string>)

  /** The file's content type, `''` when the parser found none. */
  function ContentType(file: UploadedFile): string
  {
    OrElse(file.mimetype, "")
  }

  predicate Admissible(kind: UploadKind, file: UploadedFile)
  {
    ValidateFileType(ContentType(file), AllowedTypes(kind)) && ValidateFileSize(file.size, MaxSize(kind))
  }

  /**
   * The checks of an upload handler, in order: the method, the form parse (a parse
   * failure is answered 500 with its message), the presence of a file, its content
   * type and its size. `form` is the parser's answer, `timestamp` and `random` the
   * clock and random parts of the generated name.
   */
  function Admit(kind: UploadKind, httpMethod: string, form: Result<Form>, userId: string, timestamp: nat, random: string): (r: Admission)
    ensures httpMethod != "POST" <==> r == Refused(405, "Méthode non autorisée")
    ensures httpMethod == "POST" && form.Err? ==> r == Refused(500, OrElse(Some(form.error), UploadErrorMessage))
    ensures httpMethod == "POST" && form.Ok? && form.value.file.None? ==> r == Refused(400, NoFileMessage)
    ensures httpMethod == "POST" && form.Ok? && form.value.file.Some? ==>
      var file := form.value.file.value;
      && (!ValidateFileType(ContentType(file), AllowedTypes(kind)) ==> r == Refused(400, TypeRefusedMessage(kind)))
      && (ValidateFileType(ContentType(file), AllowedTypes(kind)) && !ValidateFileSize(file.size, MaxSize(kind))
          ==> r == Refused(400, SizeRefusedMessage(kind)))
    ensures r.Admitted? <==> httpMethod == "POST" && form.Ok? && form.value.file.Some? && Admissible(kind, form.value.file.value)
    ensures r.Admitted? ==>
      var file := form.value.file.value;
      && r.bucket == Bucket(kind, OrElse(form.value.fileType, DefaultType(kind)))
      && r.path == GenerateUniqueFileName(userId, OrElse(file.originalFilename, DefaultName(kind)), timestamp, random)
      && (r.contentType.Some? <==> Truthy(file.mimetype))
  {
    if httpMethod != "POST" then Refused(405, "Méthode non autorisée")
    else if form.Err? then Refused(500, OrElse(Some(form.error), UploadErrorMessage))
    else
      var fileType := OrElse(form.value.fileType, DefaultType(kind));
      match form.value.file
      case None => Refused(400, NoFileMessage)
      case Some(file) =>
        if !ValidateFileType(ContentType(file), AllowedTypes(kind)) then Refused(400, TypeRefusedMessage(kind))
        else if !ValidateFileSize(file.size, MaxSize(kind)) then Refused(400, SizeRefusedMessage(kind))
        else
          var name := GenerateUniqueFileName(userId, OrElse(file.originalFilename, DefaultName(kind)), timestamp, random);
          Admitted(Bucket(kind, fileType), name, if Truthy(file.mimetype) then file.mimetype else None)
  }

  /** The HTTP answer: a status, and the error text of a failure or the stored object's path. */
  datatype Answer = Answer(status: nat, error: Option<string>, path: Option<string>)

  /**
   * The whole upload handler: the admission, then for an admitted file the storage
   * service's reply to `upload(bucket, path)` — the stored path, or the error it
   * reported, which is answered 500 with that text.
   */
  function HandleUpload(kind: UploadKind, httpMethod: string, form: Result<Form>, userId: string, timestamp: nat, random: string,
                        upload: (string, string) -> Result<string>): (r: Answer)
    ensures var a := Admit(kind, httpMethod, form, userId, timestamp, random);
      && (a.Refused? ==> r == Answer(a.status, Some(a.error), None))
      && (a.Admitted? && upload(a.bucket, a.path).Err? ==> r == Answer(500, Some(upload(a.bucket, a.path).error), None))
      && (a.Admitted? && upload(a.bucket, a.path).Ok? ==> r == Answer(200, None, Some(upload(a.bucket, a.path).value)))
    ensures r.status == 200 <==> Admit(kind, httpMethod, form, userId, timestamp, random).Admitted?
                                 && upload(Admit(kind, httpMethod, form, userId, timestamp, random).bucket,
                                           Admit(kind, httpMethod, form, userId, timestamp, random).path).Ok?
  {
    match Admit(kind, httpMethod, form, userId, timestamp, random)
    case Refused(status, error) => Answer(status, Some(error), None)
    case Admitted(bucket, path, _) =>
      match upload(bucket, path)
      case Err(e) => Answer(500, Some(e), None)
      case Ok(stored) => Answer(200, None, Some(stored))
  }

  /**
   * An image of exactly 5 MiB with an accepted type is admitted into the ad-photo
   * bucket by default; one byte more is refused, and so is an accepted size with no
   * content type.
   */
  lemma ImageLimits(userId: string, timestamp: nat, random: string)
    ensures var ok := UploadedFile(Some("image/png"), MaxImageSize, None);
      var a := Admit(ImageUpload, "POST", Ok(Form(Some(ok), None)), userId, timestamp, random);
      && a.Admitted? && a.bucket == AdPhotosBucket
      && a.path == GenerateUniqueFileName(userId, "image.jpg", timestamp, random)
    ensures Admit(ImageUpload, "POST", Ok(Form(Some(UploadedFile(Some("image/png"), MaxImageSize + 1, None)), None)), userId, timestamp, random)
      == Refused(400, SizeRefusedMessage(ImageUpload))
    ensures Admit(ImageUpload, "POST", Ok(Form(Some(UploadedFile(None, 1, None)), Some("profile"))), userId, timestamp, random)
      == Refused(400, TypeRefusedMessage(ImageUpload))
  {
    assert ValidateFileType("image/png", AllowedImageTypes) by {
      assert AllowedImageTypes[2] == "image/png";
    }
    assert !ValidateFileType("", AllowedImageTypes) by {
      ImageTypes("");
    }
    var ok := UploadedFile(Some("image/png"), MaxImageSize, None);
    assert Admissible(ImageUpload, ok);
  }

  /**
   * A document of exactly 10 MiB with an accepted type is admitted: into the listing
   * bucket for `type = listing`, into the ad-documents bucket without a `type`.
   */
  lemma DocumentAdmitted(userId: string, timestamp: nat, random: string)
    ensures var ok := UploadedFile(Some("text/csv"), MaxFileSize, Some("stock.CSV"));
      var a := Admit(DocumentUpload, "POST", Ok(Form(Some(ok), Some("listing"))), userId, timestamp, random);
      && a.Admitted? && a.bucket == AdListingsBucket
      && a.path == GenerateUniqueFileName(userId, "stock.CSV", timestamp, random)
    ensures var ok := UploadedFile(Some("text/csv"), MaxFileSize, Some("stock.CSV"));
      var a := Admit(DocumentUpload, "POST", Ok(Form(Some(ok), None)), userId, timestamp, random);
      && a.Admitted? && a.bucket == AdDocumentsBucket
      && a.path == GenerateUniqueFileName(userId, "stock.CSV", timestamp, random)
  {
    var ok := UploadedFile(Some("text/csv"), MaxFileSize, Some("stock.CSV"));
    assert ValidateFileType("text/csv", AllowedDocumentTypes) by {
      assert AllowedDocumentTypes[3] == "text/csv";
    }
    assert Admissible(DocumentUpload, ok);
    assert "document" != "listing" by { assert "document"[0] != "listing"[0]; }
    assert OrElse(None, DefaultType(DocumentUpload)) == "document";
  }

  /** One byte over 10 MiB is refused, and so is an image type. */
  lemma DocumentRefused(userId: string, timestamp: nat, random: string)
    ensures Admit(DocumentUpload, "POST", Ok(Form(Some(UploadedFile(Some("text/csv"), MaxFileSize + 1, None)), None)), userId, timestamp, random)
      == Refused(400, SizeRefusedMessage(DocumentUpload))
    ensures Admit(DocumentUpload, "POST", Ok(Form(Some(UploadedFile(Some("image/png"), 1, None)), None)), userId, timestamp, random)
      == Refused(400, TypeRefusedMessage(DocumentUpload))
  {
    assert ValidateFileType("text/csv", AllowedDocumentTypes) by {
      assert AllowedDocumentTypes[3] == "text/csv";
    }
    assert !ValidateFileType("image/png", AllowedDocumentTypes) by {
      DocumentTypes("image/png");
    }
  }

  /** Nothing reaches the storage service for a refused file, and a refusal never depends on the clock or the random part. */
  lemma RefusalIgnoresName(kind: UploadKind, httpMethod: string, form: Result<Form>, userId: string,
                           t1: nat, r1: string, t2: nat, r2: string)
    requires Admit(kind, httpMethod, form, userId, t1, r1).Refused?
    ensures Admit(kind, httpMethod, form, userId, t2, r2) == Admit(kind, httpMethod, form, userId, t1, r1)
  {
  }
}
