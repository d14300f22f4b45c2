/** common/reporting.go: what happens after every check has passed. The
    credential blob is decrypted with AES-256-GCM, a Pub/Sub client is built
    from the plaintext, and a record of the student and the machine is
    published. Base64, AES, GCM, JSON and Pub/Sub are foreign: each is a
    function that returns a value or fails. */
module Reporting {
  import opened Outcomes
  import opened Text

  // ------------------------------------------------------------------
  // The published record
  // ------------------------------------------------------------------

  /** The record published on success; the field names are the JSON keys of
      Field1..Field10. A `time.Time` is kept as an opaque instant. */
  datatype Message = Message(
    timestamp: int,   // Field1
    id: int,          // Field2
    name: string,     // Field3
    host: string,     // Field4
    user: string,     // Field5
    os: string,       // Field6
    version: string,  // Field7
    uptime: int,      // Field8
    ip: string,       // Field9
    pubIp: string)    // Field10

  /** CreateMessage: every argument lands unchanged in its own field. */
  function CreateMessage(currentTime: int, id: int, name: string, hostName: string, user: string,
                         osFamily: string, version: string, up: int, ip: string, pub: string): (m: Message)
    ensures m.timestamp == currentTime && m.id == id && m.name == name && m.host == hostName
    ensures m.user == user && m.os == osFamily && m.version == version && m.uptime == up
    ensures m.ip == ip && m.pubIp == pub
  {
    Message(currentTime, id, name, hostName, user, osFamily, version, up, ip, pub)
  }

  /** No two argument lists give the same record, and every record is built
      from its own fields. */
  lemma CreateMessageInjective(m: Message, currentTime: int, id: int, name: string, hostName: string, user: string,
                               osFamily: string, version: string, up: int, ip: string, pub: string)
    ensures m == CreateMessage(m.timestamp, m.id, m.name, m.host, m.user, m.os, m.version, m.uptime, m.ip, m.pubIp)
    ensures CreateMessage(currentTime, id, name, hostName, user, osFamily, version, up, ip, pub) == m ==>
      currentTime == m.timestamp && id == m.id && name == m.name && hostName == m.host && user == m.user
      && osFamily == m.os && version == m.version && up == m.uptime && ip == m.ip && pub == m.pubIp
  {
  }

  // ------------------------------------------------------------------
  // Machine information
  // ------------------------------------------------------------------

  const Two64: int := 0x1_0000_0000_0000_0000
  const Two63: int := 0x8000_0000_0000_0000

  /** Go's `int(u)` for a `uint64` on a 64-bit platform: values from 2^63 up
      wrap round to negative numbers. */
  function Int64OfUint64(u: int): (r: int)
    requires 0 <= u < Two64
    ensures -Two63 <= r < Two63
    ensures (r - u) % Two64 == 0
    ensures u < Two63 ==> r == u
  {
    if u < Two63 then u else u - Two64
  }

  /** What gopsutil's `host.Info` reports, as far as the record uses it. */
  datatype HostInfo = HostInfo(hostname: string, os: string, platformVersion: string, uptime: int)

  /** CollectMachineInfo's results, in its return order. */
  datatype MachineInfo = MachineInfo(
    hostName: string, user: string, osFamily: string, version: string, up: int, ip: string, pub: string)

  /** CollectMachineInfo: the errors of the three lookups are discarded, so a
      failed address lookup contributes the empty string its function
      returns alongside the error. */
  function CollectMachineInfo(host: HostInfo, userEnv: string, localIp: Call<string>, publicIp: Call<string>): (info: MachineInfo)
    requires 0 <= host.uptime < Two64
    ensures info.hostName == host.hostname && info.user == userEnv
    ensures info.osFamily == host.os && info.version == host.platformVersion
    ensures info.up == Int64OfUint64(host.uptime)
    ensures info.ip == (if localIp.Returned? then localIp.value else "")
    ensures info.pub == (if publicIp.Returned? then publicIp.value else "")
  {
    MachineInfo(host.hostname, userEnv, host.os, host.platformVersion, Int64OfUint64(host.uptime),
                if localIp.Returned? then localIp.value else "",
                if publicIp.Returned? then publicIp.value else "")
  }

  // ------------------------------------------------------------------
  // Decryption
  // ------------------------------------------------------------------

  /** AES-256 takes a 32-byte key. */
  const KeySize: nat := 32

  /** An AES block cipher, built from its key. */
  datatype Block = Block(key: seq<byte>)

  /** A GCM instance: its nonce size, and its Open operation on a nonce and a
      ciphertext (with its tag). */
  datatype Aead = Aead(nonceSize: nat, open: (seq<byte>, seq<byte>) -> Call<seq<byte>>)

  /** The library routines DecryptJSON calls. */
  datatype CryptoLib = CryptoLib(
    decodeBase64: seq<byte> -> Call<seq<byte>>,
    newCipher: seq<byte> -> Call<Block>,
    newGCM: Block -> Call<Aead>)

  /** The nonce is the first `n` bytes of the decoded blob, the ciphertext the rest. */
  function SplitNonce(decoded: seq<byte>, n: nat): (parts: (seq<byte>, seq<byte>))
    requires n <= |decoded|
    ensures |parts.0| == n && |parts.1| == |decoded| - n
    ensures parts.0 + parts.1 == decoded
  {
    (decoded[..n], decoded[n..])
  }

  /** The blob once key, base64, cipher and GCM have all succeeded: the
      decoded bytes and the GCM instance. */
  function Prepared(key: seq<byte>, blob: seq<byte>, lib: CryptoLib): Option<(seq<byte>, Aead)> {
    if |key| != KeySize then None
    else match lib.decodeBase64(blob)
      case Failed(_) => None
      case Returned(decoded) =>
        match lib.newCipher(key)
        case Failed(_) => None
        case Returned(block) =>
          match lib.newGCM(block)
          case Failed(_) => None
          case Returned(gcm) => Some((decoded, gcm))
  }

  /** DecryptJSON: the key length is checked before anything else, then the
      blob is base64-decoded, the cipher and the GCM are built, the decoded
      bytes are split into nonce and ciphertext and the ciphertext is opened.
      A decoded blob shorter than the nonce makes Go's slice expression panic;
      here that is the error NonceOutOfRange. */
  function DecryptJSON(key: seq<byte>, blob: seq<byte>, lib: CryptoLib): (r: Result<seq<byte>>)
    ensures |key| != KeySize ==> r == Err(BadKeyLength(|key|))
    ensures |key| == KeySize && lib.decodeBase64(blob).Failed? ==> r == Err(Base64Failed(lib.decodeBase64(blob).text))
    ensures r.Ok? <==>
      Prepared(key, blob, lib).Some?
      && Prepared(key, blob, lib).value.1.nonceSize <= |Prepared(key, blob, lib).value.0|
      && Opened(Prepared(key, blob, lib).value.0, Prepared(key, blob, lib).value.1).Returned?
    ensures r.Ok? ==> r.value == Opened(Prepared(key, blob, lib).value.0, Prepared(key, blob, lib).value.1).value
    ensures Prepared(key, blob, lib).Some? && Prepared(key, blob, lib).value.1.nonceSize > |Prepared(key, blob, lib).value.0| ==>
      r == Err(NonceOutOfRange(|Prepared(key, blob, lib).value.0|, Prepared(key, blob, lib).value.1.nonceSize))
  {
    if |key| != KeySize then Err(BadKeyLength(|key|))
    else match lib.decodeBase64(blob)
      case Failed(t) => Err(Base64Failed(t))
      case Returned(decoded) =>
        match lib.newCipher(key)
        case Failed(t) => Err(CipherFailed(t))
        case Returned(block) =>
          match lib.newGCM(block)
          case Failed(t) => Err(GcmFailed(t))
          case Returned(gcm) =>
            if gcm.nonceSize > |decoded| then Err(NonceOutOfRange(|decoded|, gcm.nonceSize))
            else
              match Opened(decoded, gcm)
              case Failed(t) => Err(DecryptFailed(t))
              case Returned(plaintext) => Ok(plaintext)
  }

  /** GCM's Open applied to the nonce and the ciphertext of `decoded`. */
  function Opened(decoded: seq<byte>, gcm: Aead): Call<seq<byte>>
    requires gcm.nonceSize <= |decoded|
  {
    var (nonce, ciphertext) := SplitNonce(decoded, gcm.nonceSize);
    gcm.open(nonce, ciphertext)
  }

  /** A key of the wrong length is rejected whatever the blob and whatever
      the library would do: nothing is decoded. */
  lemma KeyCheckedFirst(key: seq<byte>, blob1: seq<byte>, blob2: seq<byte>, lib1: CryptoLib, lib2: CryptoLib)
    requires |key| != KeySize
    ensures DecryptJSON(key, blob1, lib1) == DecryptJSON(key, blob2, lib2) == Err(BadKeyLength(|key|))
  {
  }

  /** When base64 decoding fails no cipher is built: the result does not
      depend on the cipher and GCM routines. */
  lemma Base64FailureStops(key: seq<byte>, blob: seq<byte>, lib: CryptoLib,
                           newCipher: seq<byte> -> Call<Block>, newGCM: Block -> Call<Aead>)
    requires |key| == KeySize && lib.decodeBase64(blob).Failed?
    ensures DecryptJSON(key, blob, CryptoLib(lib.decodeBase64, newCipher, newGCM)) == DecryptJSON(key, blob, lib)
  {
  }

  /** A plaintext comes only from a successful Open of the decoded blob's
      nonce and ciphertext, which together make up the decoded blob. */
  lemma PlaintextFromOpen(key: seq<byte>, blob: seq<byte>, lib: CryptoLib)
    requires DecryptJSON(key, blob, lib).Ok?
    ensures |key| == KeySize && lib.decodeBase64(blob).Returned?
    ensures exists nonce: seq<byte>, ciphertext: seq<byte>, gcm: Aead ::
      lib.newCipher(key).Returned? && lib.newGCM(lib.newCipher(key).value) == Returned(gcm)
      && nonce + ciphertext == lib.decodeBase64(blob).value && |nonce| == gcm.nonceSize
      && gcm.open(nonce, ciphertext) == Returned(DecryptJSON(key, blob, lib).value)
  {
  }

  // ------------------------------------------------------------------
  // Publishing
  // ------------------------------------------------------------------

  /** A Pub/Sub client, as created for a project from credentials. */
  datatype Client = Client(project: string, credentials: seq<byte>)

  /** The Pub/Sub routines: client creation, JSON encoding of the record, and
      a publish that answers with the server's message id. */
  datatype PubSub = PubSub(
    newClient: (string, seq<byte>) -> Call<Client>,
    marshal: Message -> Call<seq<byte>>,
    publish: (Client, string, seq<byte>) -> Call<string>)

  /** PublishMessage: encodes the record and publishes it on the topic. */
  function PublishMessage(client: Client, topicName: string, message: Message, ps: PubSub): (r: Outcome)
    ensures ps.marshal(message).Failed? ==> r == Fail(MessageMarshalFailed(ps.marshal(message).text))
    ensures r.Nil? <==> ps.marshal(message).Returned? && ps.publish(client, topicName, ps.marshal(message).value).Returned?
    ensures ps.marshal(message).Returned? && r.Fail? ==>
      r == Fail(PublishFailed(ps.publish(client, topicName, ps.marshal(message).value).text))
  {
    match ps.marshal(message)
    case Failed(t) => Fail(MessageMarshalFailed(t))
    case Returned(data) =>
      match ps.publish(client, topicName, data)
      case Failed(t) => Fail(PublishFailed(t))
      case Returned(_) => Nil
  }

  /** Why a fatal error aborted the program: an error built by sds-grader itself, or
      the text of a library's error. */
  datatype Cause = Because(error: Error) | Foreign(text: string)

  /** How HandleSuccess ends: the record was published, or `log.Fatalf`
      stopped the program with `context` and the cause. */
  datatype Submission =
    | Published(topic: string, message: Message)
    | Aborted(context: string, cause: Cause)

  const DecryptContext := "Failed to decrypt JSON"
  const ClientContext := "Failed to create Pub/Sub client"
  const PublishContext := "Failed to publish message"

  /** HandleError (common/utils.go): a non-nil error aborts with the given
      context. It lives here rather than in Utils because its result, an
      aborted submission, is a Reporting value. */
  function HandleError(err: Outcome, message: string): (abort: Option<Submission>)
    ensures abort.None? <==> err.Nil?
    ensures err.Fail? ==> abort == Some(Aborted(message, Because(err.error)))
  {
    match err
    case Nil => None
    case Fail(e) => Some(Aborted(message, Because(e)))
  }

  /** The student's answers to the two prompts. */
  datatype UserInfo = UserInfo(id: int, name: string)

  /** HandleSuccess, after the student and the machine have been described:
      decrypt the credentials, build the client, build the record and
      publish it; each failure is fatal. */
  function HandleSuccess(currentTime: int, blob: seq<byte>, key: seq<byte>, project: string, topic: string,
                         user: UserInfo, machine: MachineInfo, lib: CryptoLib, ps: PubSub): (r: Submission)
    ensures DecryptJSON(key, blob, lib).Err? ==> r == Aborted(DecryptContext, Because(DecryptJSON(key, blob, lib).error))
    ensures r.Published? ==>
      DecryptJSON(key, blob, lib).Ok?
      && ps.newClient(project, DecryptJSON(key, blob, lib).value).Returned?
      && r.topic == topic
      && r.message == CreateMessage(currentTime, user.id, user.name, machine.hostName, machine.user,
                                    machine.osFamily, machine.version, machine.up, machine.ip, machine.pub)
      && PublishMessage(ps.newClient(project, DecryptJSON(key, blob, lib).value).value, topic, r.message, ps).Nil?
    ensures r.Aborted? && r.context == PublishContext ==>
      DecryptJSON(key, blob, lib).Ok? && ps.newClient(project, DecryptJSON(key, blob, lib).value).Returned?
    ensures DecryptJSON(key, blob, lib).Ok? && ps.newClient(project, DecryptJSON(key, blob, lib).value).Failed? ==>
      r == Aborted(ClientContext, Foreign(ps.newClient(project, DecryptJSON(key, blob, lib).value).text))
    ensures DecryptJSON(key, blob, lib).Ok? && ps.newClient(project, DecryptJSON(key, blob, lib).value).Returned? ==>
      var client := ps.newClient(project, DecryptJSON(key, blob, lib).value).value;
      var message := CreateMessage(currentTime, user.id, user.name, machine.hostName, machine.user,
                                   machine.osFamily, machine.version, machine.up, machine.ip, machine.pub);
      (r.Published? <==> PublishMessage(client, topic, message, ps).Nil?)
      && (PublishMessage(client, topic, message, ps).Fail? ==>
            r == Aborted(PublishContext, Because(PublishMessage(client, topic, message, ps).error)))
  {
    var acc := DecryptJSON(key, blob, lib);
    if acc.Err? then Aborted(DecryptContext, Because(acc.error))
    else
      match ps.newClient(project, acc.value)
      case Failed(t) => Aborted(ClientContext, Foreign(t))
      case Returned(client) =>
        var message := CreateMessage(currentTime, user.id, user.name, machine.hostName, machine.user,
                                     machine.osFamily, machine.version, machine.up, machine.ip, machine.pub);
        match HandleError(PublishMessage(client, topic, message, ps), PublishContext)
        case Some(abort) => abort
        case None => Published(topic, message)
  }

  /** Nothing is published unless decryption succeeded: when it fails, the
      outcome does not depend on the Pub/Sub routines at all. */
  lemma NoPublishWithoutDecrypt(currentTime: int, blob: seq<byte>, key: seq<byte>, project: string, topic: string,
                                user: UserInfo, machine: MachineInfo, lib: CryptoLib, ps1: PubSub, ps2: PubSub)
    requires DecryptJSON(key, blob, lib).Err?
    ensures HandleSuccess(currentTime, blob, key, project, topic, user, machine, lib, ps1)
         == HandleSuccess(currentTime, blob, key, project, topic, user, machine, lib, ps2)
    ensures !HandleSuccess(currentTime, blob, key, project, topic, user, machine, lib, ps1).Published?
  {
  }
}
