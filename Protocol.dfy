/** Wire types shared by the hub, the record store and the verification router.

    Every message of the protocol is a fixed-width C struct; the model keeps
    the decoded fields and leaves the byte layout (padding, host byte order)
    out. Role bytes and status bytes are ASCII characters, as in the source. */
module Protocol {

  /** A health-card number: the file name of its record in the store. */
  type Id = seq<char>

  /** The DATE struct: a civil date with a 1-based month. */
  datatype Date = Date(day: int, month: int, year: int)

  /** The store's GP_REQUEST: the card number, the report flag ('0' revoked,
      '1' valid) and the validity window. */
  datatype GpRecord = GpRecord(id: Id, report: char, start: Date, expire: Date)

  /** The hub's GP_REQUEST. It has no report field: where the store's struct
      holds the flag, the hub's struct holds padding. */
  datatype HubGp = HubGp(id: Id, start: Date, expire: Date)

  /** The REPORT packet of the health authority: a card number and a new flag. */
  datatype ReportPacket = ReportPacket(id: Id, report: char)

  /** What follows the role bytes on a connection, decoded. */
  datatype Body = GpBody(gp: HubGp) | IdBody(id: Id) | ReportBody(pkg: ReportPacket)

  /** A connection as its peer writes it: the role bytes, then the body. */
  datatype Connection = Connection(roles: seq<char>, body: Body)

  /** What the store writes back on a connection: nothing, a status byte, or a
      status byte followed by a whole record. */
  datatype StoreReply = NoReply | Status(code: char) | StatusRecord(code: char, gp: GpRecord)

  // Role bytes at the store's boundary.
  const HubRole := '1'
  const RouterRole := '0'
  // Second role byte on a router connection to the store.
  const UpdateOp := '0'
  const ReadOp := '1'

  // Role bytes at the router's boundary.
  const ReportClientRole := '1'
  const ScannerRole := '0'

  // Status bytes of the store's read: found, absent.
  const Found := '1'
  const Absent := '2'
  // Status bytes of the store's update: done, absent.
  const Updated := '0'
  const UpdateAbsent := '1'

  // Report flag values, and the verdict bytes of a scan.
  const PassValid := '1'
  const PassInvalid := '0'

  /** Chronological order of dates: years first, then months, then days. */
  predicate ChronoLeq(a: Date, b: Date) {
    a.year < b.year
    || (a.year == b.year && a.month < b.month)
    || (a.year == b.year && a.month == b.month && a.day <= b.day)
  }

  /** Strict chronological order. */
  predicate ChronoLess(a: Date, b: Date) {
    ChronoLeq(a, b) && a != b
  }
}
