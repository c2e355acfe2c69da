/** The verification router (ServerVerifica): it serves the health
    authority's report client and the pass scanner, relays each to the record
    store with the store's role bytes, and decides a scanned pass's validity
    against today's date. */
module Router {
  import opened Protocol
  import Store

  /** The handler a client connection reaches. */
  datatype Flow = ReportFlow | ScanFlow | Unrecognized

  /** The role byte a client connection opens with (the worker in main). */
  function Dispatch(roles: seq<char>): (f: Flow)
    ensures f == ReportFlow <==> |roles| >= 1 && roles[0] == ReportClientRole
    ensures f == ScanFlow <==> |roles| >= 1 && roles[0] == ScannerRole
  {
    if |roles| == 0 then Unrecognized
    else if roles[0] == ReportClientRole then ReportFlow
    else if roles[0] == ScannerRole then ScanFlow
    else Unrecognized
  }

  /** The client sends, after its role byte, the struct the chosen handler reads. */
  predicate BodyFits(conn: Connection) {
    match Dispatch(conn.roles)
    case ReportFlow => conn.body.ReportBody?
    case ScanFlow => conn.body.IdBody?
    case Unrecognized => true
  }

  /** The role bytes verify_ID opens its store connection with: router, then read. */
  const ScanRelayRoles: seq<char> := [RouterRole, ReadOp]

  /** The role bytes send_report opens its store connection with: router, then update. */
  const ReportRelayRoles: seq<char> := [RouterRole, UpdateOp]

  /** Today is within the expiry date field by field: year, month and day
      each compared on their own. */
  predicate FieldwiseWithin(today: Date, expire: Date) {
    today.year <= expire.year && today.month <= expire.month && today.day <= expire.day
  }

  /** The store's answer to a read as verify_ID consumes it: a status byte,
      and a record whenever that byte is '1'. */
  predicate ReadAnswer(reply: StoreReply) {
    (reply.Status? && reply.code != Found) || reply.StatusRecord?
  }

  /** verify_ID's verdict on the store's answer: any status other than found
      is passed on as it is; for a found record the report byte starts at '1'
      and each of four checks in turn may set it to '0'. */
  function Verdict(reply: StoreReply, today: Date): (r: char)
    requires ReadAnswer(reply)
    ensures reply.code != Found ==> r == reply.code
    ensures reply.code == Found ==> (r == PassValid || r == PassInvalid)
    ensures reply.code == Found ==>
      (r == PassValid <==> FieldwiseWithin(today, reply.gp.expire) && reply.gp.report != PassInvalid)
  {
    if reply.code != Found then reply.code
    else
      var expire := reply.gp.expire;
      var report := if today.year > expire.year then PassInvalid else Found;
      var report := if report == Found && today.month > expire.month then PassInvalid else report;
      var report := if report == Found && today.day > expire.day then PassInvalid else report;
      var report := if report == Found && reply.gp.report == PassInvalid then PassInvalid else report;
      report
  }

  // The fixed texts sent back to the clients, each in a 39-byte buffer.
  const ReplyWidth := 39
  const ValidText := "GP valido"
  const InvalidText := "GP non valido, uscita"
  const MissingText := "Numero tessera inesistente"
  const DoneText := "*Operazione avvenuta*"

  /** receive_ID: the text the scanner receives for a verdict byte. */
  function ScanReplyText(report: char): (s: string)
    ensures |s| < ReplyWidth
    ensures s == ValidText <==> report == PassValid
    ensures s == InvalidText <==> report == PassInvalid
    ensures s == MissingText <==> report != PassValid && report != PassInvalid
  {
    if report == PassValid then ValidText
    else if report == PassInvalid then InvalidText
    else MissingText
  }

  /** receive_report: the text the report client receives for the store's
      update status byte. */
  function ReportReplyText(code: char): (s: string)
    ensures |s| < ReplyWidth
    ensures s == MissingText <==> code == UpdateAbsent
    ensures s == DoneText <==> code != UpdateAbsent
  {
    if code == UpdateAbsent then MissingText else DoneText
  }

  /** What a scan of `id` decides, on the store's files as they are. */
  function ScanVerdict(files: map<Id, GpRecord>, id: Id, today: Date): char {
    Verdict(Store.ReadReply(files, id), today)
  }

  /** One client connection, from its role byte to the close: the store's
      files afterwards and the result texts sent to the client. A recognised
      client gets one text that fits the reply buffer, an unrecognised one
      none; no session adds or removes a card number, and a scan changes nothing. */
  function Session(files: map<Id, GpRecord>, conn: Connection, today: Date): (r: (map<Id, GpRecord>, seq<string>))
    requires BodyFits(conn)
    ensures r.0.Keys == files.Keys
    ensures Dispatch(conn.roles) == ScanFlow ==> r.0 == files
    ensures |r.1| == 0 <==> Dispatch(conn.roles) == Unrecognized
    ensures |r.1| <= 1 && forall k :: 0 <= k < |r.1| ==> |r.1[k]| < ReplyWidth
  {
    match Dispatch(conn.roles)
    case ReportFlow =>
      (Store.AfterUpdate(files, conn.body.pkg),
       [ReportReplyText(Store.UpdateCode(files, conn.body.pkg))])
    case ScanFlow => (files, [ScanReplyText(ScanVerdict(files, conn.body.id, today))])
    case Unrecognized => (files, [])
  }

  /** verify_ID: ask the store for the record of `id` and judge it. */
  method VerifyId(store: Store.RecordStore, id: Id, today: Date) returns (report: char)
    requires store.Valid()
    modifies store
    ensures store.Valid() && store.files == old(store.files)
    ensures report == ScanVerdict(old(store.files), id, today)
  {
    var conn := Connection(ScanRelayRoles, IdBody(id));
    assert Store.Dispatch(conn.roles) == Store.ReadFlow;
    var reply := store.Serve(conn);
    report := Verdict(reply, today);
  }

  /** send_report: forward the authority's packet to the store and return the
      store's status byte. */
  method SendReport(store: Store.RecordStore, pkg: ReportPacket) returns (code: char)
    requires store.Valid()
    modifies store
    ensures store.Valid()
    ensures store.files == Store.AfterUpdate(old(store.files), pkg)
    ensures code == Store.UpdateCode(old(store.files), pkg)
  {
    var conn := Connection(ReportRelayRoles, ReportBody(pkg));
    assert Store.Dispatch(conn.roles) == Store.UpdateFlow;
    var reply := store.Serve(conn);
    code := reply.code;
  }

  /** receive_ID: relay a scan and send the scanner its result text. */
  method ReceiveId(store: Store.RecordStore, id: Id, today: Date) returns (sent: string)
    requires store.Valid()
    modifies store
    ensures store.Valid() && store.files == old(store.files)
    ensures sent == ScanReplyText(ScanVerdict(old(store.files), id, today))
  {
    var report := VerifyId(store, id, today);
    if report == PassValid {
      sent := ValidText;
    } else if report == PassInvalid {
      sent := InvalidText;
    } else {
      sent := MissingText;
    }
  }

  /** receive_report: relay an update and send the client its result text. */
  method ReceiveReport(store: Store.RecordStore, pkg: ReportPacket) returns (sent: string)
    requires store.Valid()
    modifies store
    ensures store.Valid()
    ensures store.files == Store.AfterUpdate(old(store.files), pkg)
    ensures sent == ReportReplyText(Store.UpdateCode(old(store.files), pkg))
  {
    var code := SendReport(store, pkg);
    if code == UpdateAbsent {
      sent := MissingText;
    } else {
      sent := DoneText;
    }
  }

  /** The worker that main forks per client connection. */
  method Serve(store: Store.RecordStore, conn: Connection, today: Date) returns (sent: seq<string>)
    requires store.Valid()
    requires BodyFits(conn)
    modifies store
    ensures store.Valid()
    ensures (store.files, sent) == Session(old(store.files), conn, today)
  {
    if |conn.roles| == 0 {
      sent := [];
    } else if conn.roles[0] == ReportClientRole {
      var text := ReceiveReport(store, conn.body.pkg);
      sent := [text];
    } else if conn.roles[0] == ScannerRole {
      var text := ReceiveId(store, conn.body.id, today);
      sent := [text];
    } else {
      sent := [];
    }
  }

  // Properties of the verdict and of the relays.

  /** verify_ID's relay prefix reaches the store's read handler, which reads
      the card number that follows. */
  lemma ScanRelayReachesRead(id: Id)
    ensures Store.Dispatch(ScanRelayRoles) == Store.ReadFlow
    ensures Store.BodyFits(Connection(ScanRelayRoles, IdBody(id)))
  {
  }

  /** send_report's relay prefix reaches the store's update handler, which
      reads the packet that follows. */
  lemma ReportRelayReachesUpdate(pkg: ReportPacket)
    ensures Store.Dispatch(ReportRelayRoles) == Store.UpdateFlow
    ensures Store.BodyFits(Connection(ReportRelayRoles, ReportBody(pkg)))
  {
  }

  /** The report client's role byte reaches the report flow. */
  lemma ReportClientReachesReportFlow()
    ensures Dispatch([ReportClientRole]) == ReportFlow
  {
  }

  /** The scanner's role byte reaches the scan flow. */
  lemma ScannerReachesScanFlow()
    ensures Dispatch([ScannerRole]) == ScanFlow
  {
  }

  /** Any other first byte, or none, gets no reply and changes nothing. */
  lemma UnknownClientIgnored(files: map<Id, GpRecord>, conn: Connection, today: Date)
    requires |conn.roles| == 0 || (conn.roles[0] != ReportClientRole && conn.roles[0] != ScannerRole)
    ensures BodyFits(conn)
    ensures Session(files, conn, today) == (files, [])
  {
  }

  /** A scan of an absent number passes the store's '2' through, with no date
      check, and the scanner is told the number does not exist. */
  lemma AbsentIdIsMissing(files: map<Id, GpRecord>, id: Id, today: Date)
    requires id !in files
    ensures ScanVerdict(files, id, today) == Absent
    ensures ScanReplyText(ScanVerdict(files, id, today)) == MissingText
  {
  }

  /** A record whose flag is '0' is never valid, whatever the dates. */
  lemma RevokedNeverValid(gp: GpRecord, today: Date)
    requires gp.report == PassInvalid
    ensures Verdict(StatusRecord(Found, gp), today) == PassInvalid
  {
  }

  /** The per-field check is never more lenient than chronological order: a
      pass judged valid has not expired. */
  lemma ValidMeansNotExpired(gp: GpRecord, today: Date)
    requires Verdict(StatusRecord(Found, gp), today) == PassValid
    ensures ChronoLeq(today, gp.expire)
  {
  }

  /** The per-field check is not chronological order: on 15 June 2024 a valid
      pass expiring on 1 January 2025 is rejected. */
  lemma FieldwiseIsNotChronological()
    ensures var today := Date(15, 6, 2024);
            var gp := GpRecord("ABCDEFGHIJ", PassValid, Date(1, 1, 2025), Date(1, 1, 2025));
            ChronoLess(today, gp.expire)
            && Verdict(StatusRecord(Found, gp), today) == PassInvalid
  {
  }

  /** The verdict byte for a found record agrees with the scanner's texts:
      valid exactly when the dates pass field by field and the flag is not '0'. */
  lemma ScanOfFoundRecord(files: map<Id, GpRecord>, id: Id, today: Date)
    requires id in files
    ensures ScanReplyText(ScanVerdict(files, id, today)) == ValidText
        <==> FieldwiseWithin(today, files[id].expire) && files[id].report != PassInvalid
    ensures ScanReplyText(ScanVerdict(files, id, today)) != MissingText
  {
  }

  /** The authority's update is told "done" exactly when the number exists. */
  lemma ReportSessionText(files: map<Id, GpRecord>, pkg: ReportPacket, today: Date)
    ensures Session(files, Connection([ReportClientRole], ReportBody(pkg)), today).1
         == [if pkg.id in files then DoneText else MissingText]
  {
  }
}
