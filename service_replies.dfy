/** How the gateway's request helpers turn a downstream reply into a value or an HTTP error:
    a connection failure is a 503, a body that is not JSON is a 502 whatever the status, and an
    error status is passed on with the body's detail. The vault helper treats every status but
    200 as an error; the authorization helper only statuses from 400 up. */
module ServiceReplies {
  import opened Common
  import opened Schemas
  import opened Downstream

  const VaultUnavailable: string := "The vault service is temporarily unable to handle the request."
  const VaultBadContent: string := "The vault service responded with an invalid content type."
  const AuthUnavailable: string := "The authorization service is temporarily unable to handle the request."
  const AuthBadContent: string := "The authorization service responded with an invalid content type."

  /** A response body: not JSON, or JSON holding a `detail` text and the decoded value. */
  datatype Body<T> = Unparsable | Parsed(detail: string, value: T)

  /** What a POST produced: no connection, or a response with its status and body. */
  datatype Reply<T> = ConnectionError | Response(status: int, body: Body<T>)

  /** The classification both helpers share, given which statuses count as errors. */
  function Classify<T>(reply: Reply<T>, isError: int -> bool, unavailable: string, badContent: string): (r: Outcome<T>)
    ensures r.Err? ==> r.failure.HttpException?
    ensures r.Ok? <==> reply.Response? && reply.body.Parsed? && !isError(reply.status)
    ensures r.Ok? ==> r.value == reply.body.value
    ensures reply.ConnectionError? ==> r == Err(HttpException(HTTP_503_SERVICE_UNAVAILABLE, unavailable))
    ensures reply.Response? && reply.body.Unparsable? ==> r == Err(HttpException(HTTP_502_BAD_GATEWAY, badContent))
    ensures reply.Response? && reply.body.Parsed? && isError(reply.status) ==>
      r == Err(HttpException(reply.status, reply.body.detail))
  {
    match reply
    case ConnectionError => Err(HttpException(HTTP_503_SERVICE_UNAVAILABLE, unavailable))
    case Response(status, body) =>
      // the body is decoded before the status is looked at
      match body
      case Unparsable => Err(HttpException(HTTP_502_BAD_GATEWAY, badContent))
      case Parsed(detail, value) => if isError(status) then Err(HttpException(status, detail)) else Ok(value)
  }

  /** The vault helper: anything but 200 is an error. */
  function VaultReply<T>(reply: Reply<T>): (r: Outcome<T>)
    ensures r.Ok? <==> reply.Response? && reply.body.Parsed? && reply.status == HTTP_200
    ensures r.Ok? ==> r.value == reply.body.value
    ensures reply.ConnectionError? ==> r == Err(HttpException(HTTP_503_SERVICE_UNAVAILABLE, VaultUnavailable))
    ensures reply.Response? && reply.body.Unparsable? ==> r == Err(HttpException(HTTP_502_BAD_GATEWAY, VaultBadContent))
    ensures reply.Response? && reply.body.Parsed? && reply.status != HTTP_200 ==>
      r == Err(HttpException(reply.status, reply.body.detail))
  {
    Classify(reply, s => s != HTTP_200, VaultUnavailable, VaultBadContent)
  }

  /** The authorization helper: 400 and above are errors. */
  function AuthReply<T>(reply: Reply<T>): (r: Outcome<T>)
    ensures r.Ok? <==> reply.Response? && reply.body.Parsed? && reply.status < HTTP_400
    ensures r.Ok? ==> r.value == reply.body.value
    ensures reply.ConnectionError? ==> r == Err(HttpException(HTTP_503_SERVICE_UNAVAILABLE, AuthUnavailable))
    ensures reply.Response? && reply.body.Unparsable? ==> r == Err(HttpException(HTTP_502_BAD_GATEWAY, AuthBadContent))
    ensures reply.Response? && reply.body.Parsed? && reply.status >= HTTP_400 ==>
      r == Err(HttpException(reply.status, reply.body.detail))
  {
    Classify(reply, s => s >= HTTP_400, AuthUnavailable, AuthBadContent)
  }

  /** The two helpers differ only on the statuses below 400 other than 200, which the vault
      helper raises and the authorization helper accepts, and on their fixed details. */
  lemma ThresholdsDiffer<T>(reply: Reply<T>)
    ensures VaultReply(reply).Ok? ==> AuthReply(reply) == VaultReply(reply)
    ensures AuthReply(reply).Ok? && VaultReply(reply).Err? <==>
      reply.Response? && reply.body.Parsed? && reply.status < HTTP_400 && reply.status != HTTP_200
    ensures reply.Response? && reply.body.Parsed? && reply.status >= HTTP_400 ==> AuthReply(reply) == VaultReply(reply)
  {
  }

  /** A created-resource status is an error to the vault helper, a success to the other. */
  lemma CreatedIsVaultError(detail: string, value: VaultPayload)
    ensures VaultReply(Response(201, Parsed(detail, value))) == Err(HttpException(201, detail))
    ensures AuthReply(Response(201, Parsed(detail, value))) == Ok(value)
  {
  }

  /** Every error the helpers raise is an HTTP error, so the services that map exceptions pass
      it on unchanged. */
  lemma RaisedErrorsPassThrough<T>(reply: Reply<T>, detail: string)
    ensures VaultReply(reply).Err? ==> PassThroughOr503(VaultReply(reply).failure, detail) == VaultReply(reply).failure
    ensures AuthReply(reply).Err? ==> PassThroughOr503(AuthReply(reply).failure, detail) == AuthReply(reply).failure
  {
  }

  /** One field of the multipart form the vault-creation request posts. */
  datatype FormField =
    | RequestField(creation: CreateVault)
    | FileField(filename: string, contentType: string, bytes: seq<Byte>)

  /** The form: the JSON request field, then one `files` field per file, in order. */
  method BuildCreateVaultForm(creation: CreateVault, files: seq<UploadFile>) returns (form: seq<FormField>)
    ensures |form| == |files| + 1
    ensures form[0] == RequestField(creation)
    ensures forall i :: 0 <= i < |files| ==>
      form[i + 1] == FileField(files[i].filename, files[i].contentType, files[i].bytes)
  {
    form := [RequestField(creation)];
    for i := 0 to |files|
      invariant |form| == i + 1
      invariant form[0] == RequestField(creation)
      invariant forall j :: 0 <= j < i ==> form[j + 1] == FileField(files[j].filename, files[j].contentType, files[j].bytes)
    {
      form := form + [FileField(files[i].filename, files[i].contentType, files[i].bytes)];
    }
  }

  /** The files a form carries, read back from its file fields. */
  function FormFiles(form: seq<FormField>): seq<UploadFile> {
    if form == [] then []
    else (if form[0].FileField? then [UploadFile(form[0].filename, form[0].contentType, form[0].bytes)] else [])
         + FormFiles(form[1..])
  }

  /** Reading the files back out of file fields built from them gives the files, in order. */
  lemma {:induction false} FileFieldsCarryFiles(fields: seq<FormField>, files: seq<UploadFile>)
    requires |fields| == |files|
    requires forall i :: 0 <= i < |files| ==>
      fields[i] == FileField(files[i].filename, files[i].contentType, files[i].bytes)
    ensures FormFiles(fields) == files
    decreases |files|
  {
    if files != [] {
      assert forall i :: 0 <= i < |files| - 1 ==> fields[1..][i] == fields[i + 1];
      FileFieldsCarryFiles(fields[1..], files[1..]);
      assert files == [files[0]] + files[1..];
    }
  }

  /** Reading the files back out of a built form gives the files it was built from. */
  lemma FormCarriesFiles(form: seq<FormField>, creation: CreateVault, files: seq<UploadFile>)
    requires |form| == |files| + 1 && form[0] == RequestField(creation)
    requires forall i :: 0 <= i < |files| ==>
      form[i + 1] == FileField(files[i].filename, files[i].contentType, files[i].bytes)
    ensures FormFiles(form) == files
  {
    assert forall i :: 0 <= i < |files| ==> form[1..][i] == form[i + 1];
    FileFieldsCarryFiles(form[1..], files);
  }

  /** The vault-creation request: post the form and classify the reply. */
  method CreateVaultRequest(session: Session, creation: CreateVault, files: seq<UploadFile>, reply: Reply<VaultPayload>)
    returns (r: Outcome<VaultPayload>, form: seq<FormField>)
    modifies session
    ensures |form| > 0 && form[0] == RequestField(creation) && FormFiles(form) == files
    ensures session.log == old(session.log) + [Call.CreateVaultRequest(creation, files)]
    ensures session.chats == old(session.chats) && session.histories == old(session.histories)
    ensures r == VaultReply(reply)
  {
    form := BuildCreateVaultForm(creation, files);
    FormCarriesFiles(form, creation, files);
    r := session.Issue(Call.CreateVaultRequest(creation, files), VaultReply(reply));
  }
}
