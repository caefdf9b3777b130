/** The upload endpoint: it checks that multer stored a file, that the file is at
    least 2 KB, and answers with the public name under which the file is reachable. */
module Upload {
  import opened Wrappers
  import opened Errors

  /** 2 * 1024 bytes: the smallest accepted upload. */
  const MinFileSize: int := 2 * 1024

  const NoFileMessage: string := "Файл не загружен"
  const TooSmallMessage: string := "Размер файла должен быть больше 2KB"

  /** What multer puts on `req.file`: the generated name and the size in bytes. */
  datatype UploadedFile = UploadedFile(filename: string, size: int)

  /** Status 201 with the body `{ fileName }`. */
  datatype UploadReply = UploadReply(status: int, fileName: string)

  /** `/${UPLOAD_PATH_TEMP}/${filename}` when the variable is set to a non-empty
      value, `/${filename}` otherwise. */
  function PublicFileName(uploadPathTemp: Option<string>, filename: string): (r: string)
    ensures |r| > |filename| && r[0] == '/'
    ensures r[|r| - |filename| - 1..] == "/" + filename
    ensures uploadPathTemp.None? || uploadPathTemp.value == "" ==> r == "/" + filename
    ensures uploadPathTemp.Some? && uploadPathTemp.value != "" ==>
      |r| == |uploadPathTemp.value| + |filename| + 2 && r[1..|uploadPathTemp.value| + 1] == uploadPathTemp.value
  {
    if uploadPathTemp.Some? && uploadPathTemp.value != ""
    then "/" + uploadPathTemp.value + "/" + filename
    else "/" + filename
  }

  /** `uploadFile`: a missing file and a file under 2 KB are bad requests; a file of
      exactly 2 KB is accepted. */
  function UploadFile(file: Option<UploadedFile>, uploadPathTemp: Option<string>): (r: Result<UploadReply, Error>)
    ensures file.None? ==> r == Failure(BadRequest(NoFileMessage))
    ensures file.Some? && file.value.size < MinFileSize ==> r == Failure(BadRequest(TooSmallMessage))
    ensures r.Success? <==> file.Some? && file.value.size >= 2048
    ensures r.Success? ==>
      r.value.status == 201 && r.value.fileName == PublicFileName(uploadPathTemp, file.value.filename)
  {
    if file.None? then Failure(BadRequest(NoFileMessage))
    else if file.value.size < MinFileSize then Failure(BadRequest(TooSmallMessage))
    else Success(UploadReply(201, PublicFileName(uploadPathTemp, file.value.filename)))
  }
}
