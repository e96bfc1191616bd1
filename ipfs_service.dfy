/** The content-publishing pipeline: local checks, the image upload, then the upload of
    a metadata document that points at the image, and the mapping of whatever was thrown
    to the message the user sees. The HTTP client is not modelled: each post is
    represented by how it settled. */
module IpfsService {
  import opened Outcomes

  const MaxFileSize: nat := 100 * 1024 * 1024

  const PinFileEndpoint: string := "https://api.pinata.cloud/pinning/pinFileToIPFS"
  const PinJsonEndpoint: string := "https://api.pinata.cloud/pinning/pinJSONToIPFS"
  const IpfsScheme: string := "ipfs://"
  const GatewayPrefix: string := "https://ipfs.io/ipfs/"

  const CategoryTrait: string := "Kategori"
  const HandmadeValue: string := "El Yapımı"

  // Messages thrown inside the try block.
  const KeysMissingMessage: string := "Pinata API anahtarları bulunamadı. Lütfen .env dosyasını kontrol edin."
  const NoFileMessage: string := "Dosya seçilmedi"
  const FileTooLargeMessage: string := "Dosya boyutu çok büyük. Maksimum 100MB olmalıdır."
  const NoImageHashMessage: string := "Dosya yükleme başarısız: IPFS hash alınamadı"
  const NoMetadataHashMessage: string := "Metadata yükleme başarısız: IPFS hash alınamadı"

  // Messages the catch block rethrows, each written as its two sentences.
  const InvalidKeysMessage: string := "Pinata API anahtarları geçersiz." + " Lütfen API anahtarlarınızı kontrol edin."
  const PayloadTooLargeMessage: string := "Dosya boyutu çok büyük." + " Lütfen daha küçük bir dosya seçin."
  const UploadErrorPrefix: string := "IPFS yükleme hatası: "
  const UnreachableMessage: string := "IPFS sunucusuna bağlanılamadı." + " Lütfen internet bağlantınızı kontrol edin."
  const UnknownErrorMessage: string := "Bilinmeyen bir hata oluştu." + " Lütfen tekrar deneyin."

  /** How a template literal prints an error object that has neither `details` nor `message`. */
  const PlainObjectText: string := "[object Object]"

  /** The two Pinata keys read from the environment; an unset key is "" (both are falsy). */
  datatype Credentials = Credentials(apiKey: string, secretKey: string)

  datatype File = File(name: string, size: nat, mimeType: string)

  /** The `metadata` argument: the product's name and description. */
  datatype ProductInfo = ProductInfo(name: string, description: string)

  datatype Attribute = Attribute(traitType: string, value: string)

  /** The JSON document uploaded in the second step. */
  datatype MetadataDoc = MetadataDoc(name: string, description: string, image: string, attributes: seq<Attribute>)

  datatype PinBody = FileForm(file: File) | JsonDocument(doc: MetadataDoc)

  /** One post to the pinning service, with the two key headers it carries. */
  datatype PinRequest = PinRequest(endpoint: string, body: PinBody, credentials: Credentials)

  /** The `error` field of a Pinata error body: absent, a string, or an object whose
      `details` and `message` are "" when absent. */
  datatype ErrorField = NoErrorField | ErrorText(text: string) | ErrorObject(details: string, message: string)

  /** How one `axios.post` settles: a 2xx answer whose `data.IpfsHash` is kept ("" when the
      data or the field is missing), a rejection carrying a response, or a rejection whose
      request got no response at all. */
  datatype PostReply =
    | Answered(ipfsHash: string)
    | StatusError(status: int, statusText: string, error: ErrorField)
    | NoResponse

  /** What the try block can throw: an HTTP error with a response, one with a request
      but no response, or a plain Error of its own. */
  datatype Thrown =
    | ResponseError(status: int, statusText: string, error: ErrorField)
    | RequestError
    | LocalError(message: string)

  datatype Published = Published(imageHash: string, metadataHash: string, metadataURI: string)

  datatype Settled = Returned(published: Published) | Threw(thrown: Thrown)

  /** One run of the try block: the requests sent, in order, and how it ended. */
  datatype Attempt = Attempt(requests: seq<PinRequest>, settled: Settled)

  function IpfsUri(hash: string): string {
    IpfsScheme + hash
  }

  /** The URI names its hash: stripping the scheme gives the hash back, so different
      hashes give different URIs. */
  lemma IpfsUriNamesHash(hash: string, other: string)
    ensures IpfsUri(hash)[|IpfsScheme|..] == hash
    ensures IpfsUri(hash) == IpfsUri(other) ==> hash == other
  {
    assert IpfsUri(hash)[|IpfsScheme|..] == hash;
    assert IpfsUri(other)[|IpfsScheme|..] == other;
  }

  /** `getIPFSGatewayUrl`: the public gateway address of a content hash. */
  function GatewayUrl(hash: string): (url: string)
    ensures |url| == |GatewayPrefix| + |hash|
    ensures url[..|GatewayPrefix|] == GatewayPrefix && url[|GatewayPrefix|..] == hash
  {
    GatewayPrefix + hash
  }

  /** The document built from the product and the uploaded image's hash. */
  function MetadataFor(info: ProductInfo, imageHash: string): MetadataDoc {
    MetadataDoc(info.name, info.description, IpfsUri(imageHash), [Attribute(CategoryTrait, HandmadeValue)])
  }

  /** The checks made before anything is sent: both keys, a file, at most 100 MiB. */
  predicate PassesLocalChecks(keys: Credentials, file: Option<File>) {
    keys.apiKey != "" && keys.secretKey != "" && file.Some? && file.value.size <= MaxFileSize
  }

  function FileRequest(keys: Credentials, file: File): PinRequest {
    PinRequest(PinFileEndpoint, FileForm(file), keys)
  }

  function MetadataRequest(keys: Credentials, info: ProductInfo, imageHash: string): PinRequest {
    PinRequest(PinJsonEndpoint, JsonDocument(MetadataFor(info, imageHash)), keys)
  }

  /** What a rejected post throws into the catch block. */
  function Rejection(reply: PostReply): (t: Thrown)
    requires !reply.Answered?
    ensures reply.StatusError? ==> t == ResponseError(reply.status, reply.statusText, reply.error)
    ensures reply.NoResponse? ==> t == RequestError
  {
    match reply
    case StatusError(status, statusText, error) => ResponseError(status, statusText, error)
    case NoResponse => RequestError
  }

  /** The try block of `uploadToIPFS`: at most two requests; nothing is sent when a local
      check fails; the metadata is sent only after the image upload answered with a hash,
      and it is the document pointing at that hash; a result is returned only when both
      uploads answered with a hash, and then it names both hashes. Every other run throws:
      the local check's own message, the rejection of the post that failed, or the
      message for the hash that is missing. */
  function TryUpload(keys: Credentials, file: Option<File>, info: ProductInfo,
                     fileReply: PostReply, metadataReply: PostReply): (a: Attempt)
    ensures |a.requests| <= 2
    ensures |a.requests| == 0 <==> !PassesLocalChecks(keys, file)
    ensures |a.requests| >= 1 ==> a.requests[0] == FileRequest(keys, file.value)
    ensures |a.requests| == 2 <==>
      PassesLocalChecks(keys, file) && fileReply.Answered? && fileReply.ipfsHash != ""
    ensures |a.requests| == 2 ==> a.requests[1] == MetadataRequest(keys, info, fileReply.ipfsHash)
    ensures a.settled.Returned? <==>
      |a.requests| == 2 && metadataReply.Answered? && metadataReply.ipfsHash != ""
    ensures a.settled.Returned? ==>
      a.settled.published == Published(fileReply.ipfsHash, metadataReply.ipfsHash, IpfsUri(metadataReply.ipfsHash))
    ensures keys.apiKey == "" || keys.secretKey == "" ==> a.settled == Threw(LocalError(KeysMissingMessage))
    ensures keys.apiKey != "" && keys.secretKey != "" && file.None? ==> a.settled == Threw(LocalError(NoFileMessage))
    ensures keys.apiKey != "" && keys.secretKey != "" && file.Some? && file.value.size > MaxFileSize ==>
      a.settled == Threw(LocalError(FileTooLargeMessage))
    ensures PassesLocalChecks(keys, file) && !fileReply.Answered? ==> a.settled == Threw(Rejection(fileReply))
    ensures PassesLocalChecks(keys, file) && fileReply.Answered? && fileReply.ipfsHash == "" ==>
      a.settled == Threw(LocalError(NoImageHashMessage))
    ensures |a.requests| == 2 && !metadataReply.Answered? ==> a.settled == Threw(Rejection(metadataReply))
    ensures |a.requests| == 2 && metadataReply.Answered? && metadataReply.ipfsHash == "" ==>
      a.settled == Threw(LocalError(NoMetadataHashMessage))
  {
    if keys.apiKey == "" || keys.secretKey == "" then
      Attempt([], Threw(LocalError(KeysMissingMessage)))
    else if file.None? then
      Attempt([], Threw(LocalError(NoFileMessage)))
    else if file.value.size > MaxFileSize then
      Attempt([], Threw(LocalError(FileTooLargeMessage)))
    else
      var first := [FileRequest(keys, file.value)];
      match fileReply
      case Answered(imageHash) =>
        if imageHash == "" then
          Attempt(first, Threw(LocalError(NoImageHashMessage)))
        else
          var both := first + [MetadataRequest(keys, info, imageHash)];
          (match metadataReply
           case Answered(metadataHash) =>
             if metadataHash == "" then
               Attempt(both, Threw(LocalError(NoMetadataHashMessage)))
             else
               Attempt(both, Returned(Published(imageHash, metadataHash, IpfsUri(metadataHash))))
           case _ => Attempt(both, Threw(Rejection(metadataReply))))
      case _ => Attempt(first, Threw(Rejection(fileReply)))
  }

  /** The detail shown for an error response: the first non-empty of `error.details`,
      `error.message`, `error` itself and the status text. */
  function ErrorDetail(error: ErrorField, statusText: string): string {
    match error
    case NoErrorField => statusText
    case ErrorText(text) => if text != "" then text else statusText
    case ErrorObject(details, message) =>
      if details != "" then details else if message != "" then message else PlainObjectText
  }

  /** The catch block of `uploadToIPFS`: the message of the Error it rethrows. */
  function Classify(e: Thrown): (message: string)
    ensures e.ResponseError? && e.status == 401 ==> message == InvalidKeysMessage
    ensures e.ResponseError? && e.status == 413 ==> message == PayloadTooLargeMessage
    ensures e.ResponseError? && e.status != 401 && e.status != 413 ==>
      message == UploadErrorPrefix + ErrorDetail(e.error, e.statusText)
    ensures e.RequestError? ==> message == UnreachableMessage
    ensures e.LocalError? && e.message != "" ==> message == UploadErrorPrefix + e.message
    ensures e.LocalError? && e.message == "" ==> message == UnknownErrorMessage
  {
    match e
    case ResponseError(status, statusText, error) =>
      if status == 401 then InvalidKeysMessage
      else if status == 413 then PayloadTooLargeMessage
      else UploadErrorPrefix + ErrorDetail(error, statusText)
    case RequestError => UnreachableMessage
    case LocalError(message) =>
      if message != "" then UploadErrorPrefix + message else UnknownErrorMessage
  }

  /** The remedies the messages point the user to. */
  datatype FailureKind = BadKeys | PayloadTooLarge | Unreachable | Detailed | Unknown

  function KindOf(e: Thrown): FailureKind {
    match e
    case ResponseError(status, _, _) =>
      if status == 401 then BadKeys else if status == 413 then PayloadTooLarge else Detailed
    case RequestError => Unreachable
    case LocalError(message) => if message != "" then Detailed else Unknown
  }

  /** Reading the remedy back off a message. */
  function KindOfMessage(message: string): FailureKind {
    if message == InvalidKeysMessage then BadKeys
    else if message == PayloadTooLargeMessage then PayloadTooLarge
    else if message == UnreachableMessage then Unreachable
    else if UploadErrorPrefix <= message then Detailed
    else Unknown
  }

  /** The classifier keeps the failure classes apart: from the message alone one can tell
      bad keys, a payload rejected as too large, an unreachable service, a failure with a
      detail, and an unknown failure. */
  lemma ClassifyKeepsKind(e: Thrown)
    ensures KindOfMessage(Classify(e)) == KindOf(e)
  {
    var m := Classify(e);
    assert InvalidKeysMessage[0] == 'P' && PayloadTooLargeMessage[0] == 'D';
    assert UnreachableMessage[0] == 'I' && UnreachableMessage[5] == 's';
    assert UnknownErrorMessage[0] == 'B' && UploadErrorPrefix[0] == 'I' && UploadErrorPrefix[5] == 'y';
    if KindOf(e) == Detailed {
      assert UploadErrorPrefix <= m;
      assert m[0] == 'I' && m[5] == 'y';
    }
  }

  /** How the whole call settles: the result, or the classified message. */
  function Settle(s: Settled): Result<Published> {
    match s
    case Returned(p) => Ok(p)
    case Threw(e) => Err(Classify(e))
  }

  /** A file of exactly 100 MiB passes the size check and is uploaded; one byte more
      and nothing is sent, the call failing with the size message. */
  lemma SizeLimitIsInclusive(keys: Credentials, name: string, mimeType: string, info: ProductInfo,
                             fileReply: PostReply, metadataReply: PostReply)
    requires keys.apiKey != "" && keys.secretKey != ""
    ensures |TryUpload(keys, Some(File(name, MaxFileSize, mimeType)), info, fileReply, metadataReply).requests| >= 1
    ensures var a := TryUpload(keys, Some(File(name, MaxFileSize + 1, mimeType)), info, fileReply, metadataReply);
      a.requests == [] && Settle(a.settled) == Err(UploadErrorPrefix + FileTooLargeMessage)
  {
  }

  /** A key rejection (401) or a size rejection (413) from either post reaches the user as
      the matching message, not as an unreachable service or a generic failure. */
  lemma StatusRejectionsReachUser(keys: Credentials, file: Option<File>, info: ProductInfo,
                                  fileReply: PostReply, metadataReply: PostReply, rejected: PostReply)
    requires PassesLocalChecks(keys, file)
    requires rejected.StatusError? && (rejected.status == 401 || rejected.status == 413)
    requires fileReply == rejected || (fileReply.Answered? && fileReply.ipfsHash != "" && metadataReply == rejected)
    ensures var r := Settle(TryUpload(keys, file, info, fileReply, metadataReply).settled);
      && (rejected.status == 401 ==> r == Err(InvalidKeysMessage))
      && (rejected.status == 413 ==> r == Err(PayloadTooLargeMessage))
  {
  }

  /** After a successful publication the metadata URI resolves to a document whose image
      is the published image: the second request carried exactly that document. */
  lemma PublishedMetadataPointsAtImage(keys: Credentials, file: Option<File>, info: ProductInfo,
                                       fileReply: PostReply, metadataReply: PostReply)
    requires TryUpload(keys, file, info, fileReply, metadataReply).settled.Returned?
    ensures var a := TryUpload(keys, file, info, fileReply, metadataReply);
      var p := a.settled.published;
      && a.requests[1].body == JsonDocument(MetadataDoc(info.name, info.description, IpfsUri(p.imageHash), [Attribute(CategoryTrait, HandmadeValue)]))
      && p.metadataURI == IpfsUri(p.metadataHash)
      && p.imageHash != "" && p.metadataHash != ""
  {
  }

  /** The pinning service as seen from this client: the requests it has received. */
  class PinataClient {
    var sent: seq<PinRequest>

    constructor ()
      ensures sent == []
    {
      sent := [];
    }
  }

  /** `uploadToIPFS(file, metadata)` run against `client`: the requests of the try block
      are sent in order, and the call settles as the try block and catch block decide. */
  method UploadToIpfs(client: PinataClient, keys: Credentials, file: Option<File>, info: ProductInfo,
                      fileReply: PostReply, metadataReply: PostReply)
    returns (r: Result<Published>)
    modifies client
    ensures client.sent == old(client.sent) + TryUpload(keys, file, info, fileReply, metadataReply).requests
    ensures r == Settle(TryUpload(keys, file, info, fileReply, metadataReply).settled)
  {
    var outcome: Settled;
    if keys.apiKey == "" || keys.secretKey == "" {
      outcome := Threw(LocalError(KeysMissingMessage));
    } else if file.None? {
      outcome := Threw(LocalError(NoFileMessage));
    } else if file.value.size > MaxFileSize {
      outcome := Threw(LocalError(FileTooLargeMessage));
    } else {
      client.sent := client.sent + [FileRequest(keys, file.value)];
      if !fileReply.Answered? {
        outcome := Threw(Rejection(fileReply));
      } else if fileReply.ipfsHash == "" {
        outcome := Threw(LocalError(NoImageHashMessage));
      } else {
        var imageHash := fileReply.ipfsHash;
        client.sent := client.sent + [MetadataRequest(keys, info, imageHash)];
        if !metadataReply.Answered? {
          outcome := Threw(Rejection(metadataReply));
        } else if metadataReply.ipfsHash == "" {
          outcome := Threw(LocalError(NoMetadataHashMessage));
        } else {
          var metadataHash := metadataReply.ipfsHash;
          outcome := Returned(Published(imageHash, metadataHash, IpfsUri(metadataHash)));
        }
      }
    }
    r := Settle(outcome);
  }
}
