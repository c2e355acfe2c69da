/** The record store (ServerVaccinale): one green-pass record per card number,
    one file per record, reached through role bytes.

    The directory of record files is a map from card number to record. The
    functions below say what each operation does to that map and what it
    writes back; the class RecordStore carries the map as a field and its
    methods are proved to act as the functions say. */
module Store {
  import opened Protocol

  /** The handler a store connection reaches. */
  datatype Flow = CreateFlow | UpdateFlow | ReadFlow | Dropped

  /** The second role byte on a router connection (SV_comunication). */
  function RouterOpFlow(op: seq<char>): (f: Flow)
    ensures f == UpdateFlow <==> |op| >= 1 && op[0] == UpdateOp
    ensures f == ReadFlow <==> |op| >= 1 && op[0] == ReadOp
    ensures f != CreateFlow
  {
    if |op| == 0 then Dropped
    else if op[0] == UpdateOp then UpdateFlow
    else if op[0] == ReadOp then ReadFlow
    else Dropped
  }

  /** The first role byte of a store connection (the worker in main), then,
      for the router, the second one. */
  function Dispatch(roles: seq<char>): (f: Flow)
    ensures f == CreateFlow <==> |roles| >= 1 && roles[0] == HubRole
    ensures f == UpdateFlow <==> |roles| >= 2 && roles[0] == RouterRole && roles[1] == UpdateOp
    ensures f == ReadFlow <==> |roles| >= 2 && roles[0] == RouterRole && roles[1] == ReadOp
  {
    if |roles| == 0 then Dropped
    else if roles[0] == HubRole then CreateFlow
    else if roles[0] == RouterRole then RouterOpFlow(roles[1..])
    else Dropped
  }

  /** The peer sends, after its role bytes, the struct the chosen handler reads. */
  predicate BodyFits(conn: Connection) {
    match Dispatch(conn.roles)
    case CreateFlow => conn.body.GpBody?
    case UpdateFlow => conn.body.ReportBody?
    case ReadFlow => conn.body.IdBody?
    case Dropped => true
  }

  /** Every record is filed under its own card number. */
  ghost predicate Keyed(files: map<Id, GpRecord>) {
    forall id :: id in files ==> files[id].id == id
  }

  /** The record the create handler files for a hub message: the flag is forced to valid. */
  function Minted(gp: HubGp): GpRecord {
    GpRecord(gp.id, PassValid, gp.start, gp.expire)
  }

  /** CV_comunication: the file named by the card number is created or truncated
      and holds the new record. */
  function AfterCreate(files: map<Id, GpRecord>, gp: HubGp): map<Id, GpRecord> {
    files[gp.id := Minted(gp)]
  }

  /** send_gp: found and the record, or absent and nothing more. */
  function ReadReply(files: map<Id, GpRecord>, id: Id): StoreReply {
    if id in files then StatusRecord(Found, files[id]) else Status(Absent)
  }

  /** modify_report: only an existing record is rewritten, with the new flag. */
  function AfterUpdate(files: map<Id, GpRecord>, pkg: ReportPacket): map<Id, GpRecord> {
    if pkg.id in files then files[pkg.id := files[pkg.id].(report := pkg.report)] else files
  }

  /** modify_report's status byte. */
  function UpdateCode(files: map<Id, GpRecord>, pkg: ReportPacket): char {
    if pkg.id in files then Updated else UpdateAbsent
  }

  /** One store connection, from its role bytes to the close: only a router
      connection is answered, only the hub's issue adds a number, and no other
      connection changes the set of numbers. */
  function Step(files: map<Id, GpRecord>, conn: Connection): (r: (map<Id, GpRecord>, StoreReply))
    requires BodyFits(conn)
    ensures r.1 != NoReply <==> Dispatch(conn.roles) == UpdateFlow || Dispatch(conn.roles) == ReadFlow
    ensures forall id :: id in r.0 && id !in files ==> Issues(conn, id)
    ensures Dispatch(conn.roles) != CreateFlow ==> r.0.Keys == files.Keys
  {
    match Dispatch(conn.roles)
    case CreateFlow => (AfterCreate(files, conn.body.gp), NoReply)
    case UpdateFlow => (AfterUpdate(files, conn.body.pkg), Status(UpdateCode(files, conn.body.pkg)))
    case ReadFlow => (files, ReadReply(files, conn.body.id))
    case Dropped => (files, NoReply)
  }

  /** Every connection of a run sends the struct its handler reads. */
  predicate AllFit(conns: seq<Connection>) {
    forall i :: 0 <= i < |conns| ==> BodyFits(conns[i])
  }

  /** The accept loop of main, one connection after another: the files after
      serving `conns` in order. Without a connection from the hub, the set of
      card numbers on file stays the same. */
  function Run(files: map<Id, GpRecord>, conns: seq<Connection>): (r: map<Id, GpRecord>)
    requires AllFit(conns)
    ensures (forall i :: 0 <= i < |conns| ==> Dispatch(conns[i].roles) != CreateFlow) ==> r.Keys == files.Keys
    decreases |conns|
  {
    if conns == [] then files
    else Step(Run(files, conns[..|conns| - 1]), conns[|conns| - 1]).0
  }

  /** The connection is the hub issuing a pass for `id`. */
  predicate Issues(conn: Connection, id: Id) {
    Dispatch(conn.roles) == CreateFlow && conn.body.GpBody? && conn.body.gp.id == id
  }

  /** The table of record files, changed in place by the handlers. */
  class RecordStore {
    var files: map<Id, GpRecord>

    ghost predicate Valid()
      reads this
    {
      Keyed(files)
    }

    constructor ()
      ensures Valid() && files == map[]
    {
      files := map[];
    }

    /** CV_comunication: file the hub's record under its card number, flag
        forced to valid, replacing any earlier record for that number. */
    method Create(gp: HubGp)
      requires Valid()
      modifies this
      ensures Valid()
      ensures files == AfterCreate(old(files), gp)
    {
      var rec := GpRecord(gp.id, PassValid, gp.start, gp.expire);
      files := files[gp.id := rec];
    }

    /** send_gp: answer a read without changing any file. */
    method SendGp(id: Id) returns (reply: StoreReply)
      ensures reply == ReadReply(files, id)
      ensures reply.StatusRecord? <==> id in files
      ensures id !in files ==> reply == Status(Absent)
      ensures Valid() && reply.StatusRecord? ==> reply.code == Found && reply.gp.id == id
    {
      if id !in files {
        reply := Status(Absent);
      } else {
        var gp := files[id];
        reply := StatusRecord(Found, gp);
      }
    }

    /** modify_report: rewrite only the flag of an existing record. */
    method ModifyReport(pkg: ReportPacket) returns (code: char)
      requires Valid()
      modifies this
      ensures Valid()
      ensures files == AfterUpdate(old(files), pkg)
      ensures code == UpdateCode(old(files), pkg)
    {
      if pkg.id !in files {
        code := UpdateAbsent;
      } else {
        var gp := files[pkg.id];
        gp := gp.(report := pkg.report);
        files := files[pkg.id := gp];
        code := Updated;
      }
    }

    /** SV_comunication: the second role byte picks update or read. */
    method ServeRouter(op: seq<char>, body: Body) returns (reply: StoreReply)
      requires Valid()
      requires RouterOpFlow(op) == UpdateFlow ==> body.ReportBody?
      requires RouterOpFlow(op) == ReadFlow ==> body.IdBody?
      modifies this
      ensures Valid()
      ensures (files, reply) == Step(old(files), Connection([RouterRole] + op, body))
    {
      assert ([RouterRole] + op)[1..] == op;
      if |op| == 0 {
        reply := NoReply;
      } else if op[0] == UpdateOp {
        var code := ModifyReport(body.pkg);
        reply := Status(code);
      } else if op[0] == ReadOp {
        reply := SendGp(body.id);
      } else {
        reply := NoReply;
      }
    }

    /** The worker that main forks per connection: the first role byte picks
        the hub's flow or the router's. */
    method Serve(conn: Connection) returns (reply: StoreReply)
      requires Valid()
      requires BodyFits(conn)
      modifies this
      ensures Valid()
      ensures (files, reply) == Step(old(files), conn)
    {
      if |conn.roles| == 0 {
        reply := NoReply;
      } else if conn.roles[0] == HubRole {
        Create(conn.body.gp);
        reply := NoReply;
      } else if conn.roles[0] == RouterRole {
        assert conn.roles == [RouterRole] + conn.roles[1..];
        reply := ServeRouter(conn.roles[1..], conn.body);
      } else {
        reply := NoReply;
      }
    }

    /** The accept loop of main, with the connections served one at a time. */
    method ServeAll(conns: seq<Connection>)
      requires Valid()
      requires AllFit(conns)
      modifies this
      ensures Valid()
      ensures files == Run(old(files), conns)
    {
      var i := 0;
      while i < |conns|
        invariant i <= |conns|
        invariant Valid()
        invariant files == Run(old(files), conns[..i])
      {
        assert conns[..i + 1][..i] == conns[..i];
        var _ := Serve(conns[i]);
        i := i + 1;
      }
      assert conns[..i] == conns;
    }
  }

  // Properties of the handlers.

  /** Create files the hub's record, flag valid, under its number, and a read
      returns exactly that record. */
  lemma CreateThenRead(files: map<Id, GpRecord>, gp: HubGp)
    ensures ReadReply(AfterCreate(files, gp), gp.id)
         == StatusRecord(Found, GpRecord(gp.id, PassValid, gp.start, gp.expire))
  {
  }

  /** Create touches only the file named by the record's card number. */
  lemma CreateFrame(files: map<Id, GpRecord>, gp: HubGp, other: Id)
    requires other != gp.id
    ensures other in AfterCreate(files, gp) <==> other in files
    ensures other in files ==> AfterCreate(files, gp)[other] == files[other]
  {
  }

  /** Create keeps every record under its own number. */
  lemma CreateKeepsKeyed(files: map<Id, GpRecord>, gp: HubGp)
    requires Keyed(files)
    ensures Keyed(AfterCreate(files, gp))
  {
  }

  /** A read changes nothing; absent numbers get the single byte '2'. */
  lemma ReadAbsent(files: map<Id, GpRecord>, id: Id)
    requires id !in files
    ensures ReadReply(files, id) == Status(Absent)
    ensures Step(files, Connection([RouterRole, ReadOp], IdBody(id))) == (files, Status(Absent))
  {
  }

  /** An update of an absent number answers '1' and creates no record. */
  lemma UpdateAbsentCreatesNothing(files: map<Id, GpRecord>, pkg: ReportPacket)
    requires pkg.id !in files
    ensures AfterUpdate(files, pkg) == files
    ensures UpdateCode(files, pkg) == UpdateAbsent
    ensures pkg.id !in AfterUpdate(files, pkg)
  {
  }

  /** An update of a present number answers '0' and changes only its flag. */
  lemma UpdatePresent(files: map<Id, GpRecord>, pkg: ReportPacket)
    requires pkg.id in files
    ensures UpdateCode(files, pkg) == Updated
    ensures AfterUpdate(files, pkg).Keys == files.Keys
    ensures AfterUpdate(files, pkg)[pkg.id].report == pkg.report
    ensures AfterUpdate(files, pkg)[pkg.id].id == files[pkg.id].id
    ensures AfterUpdate(files, pkg)[pkg.id].start == files[pkg.id].start
    ensures AfterUpdate(files, pkg)[pkg.id].expire == files[pkg.id].expire
    ensures forall other :: other in files && other != pkg.id ==> AfterUpdate(files, pkg)[other] == files[other]
  {
  }

  /** Create, update the flag, read: the flag read back is the new one and the
      dates are those of the create. */
  lemma CreateUpdateRead(files: map<Id, GpRecord>, gp: HubGp, flag: char)
    ensures ReadReply(AfterUpdate(AfterCreate(files, gp), ReportPacket(gp.id, flag)), gp.id)
         == StatusRecord(Found, GpRecord(gp.id, flag, gp.start, gp.expire))
  {
  }

  /** No connection removes a record: the store has no deletion path. */
  lemma StepNeverDeletes(files: map<Id, GpRecord>, conn: Connection)
    requires BodyFits(conn)
    ensures files.Keys <= Step(files, conn).0.Keys
  {
  }

  /** Role bytes other than the recognised ones change nothing and get no reply. */
  lemma UnknownRolesIgnored(files: map<Id, GpRecord>, conn: Connection)
    requires |conn.roles| == 0
          || (conn.roles[0] != HubRole && conn.roles[0] != RouterRole)
          || (conn.roles[0] == RouterRole && (|conn.roles| == 1 || (conn.roles[1] != UpdateOp && conn.roles[1] != ReadOp)))
    ensures BodyFits(conn)
    ensures Step(files, conn) == (files, NoReply)
  {
  }

  /** One connection keeps every record under its own number. */
  lemma StepKeepsKeyed(files: map<Id, GpRecord>, conn: Connection)
    requires Keyed(files)
    requires BodyFits(conn)
    ensures Keyed(Step(files, conn).0)
  {
  }

  /** Any run of connections keeps every record under its own number. */
  lemma {:induction false} RunKeepsKeyed(files: map<Id, GpRecord>, conns: seq<Connection>)
    requires Keyed(files)
    requires AllFit(conns)
    ensures Keyed(Run(files, conns))
    decreases |conns|
  {
    if conns != [] {
      var init := conns[..|conns| - 1];
      RunKeepsKeyed(files, init);
      StepKeepsKeyed(Run(files, init), conns[|conns| - 1]);
    }
  }

  /** No run of connections removes a record. */
  lemma {:induction false} RunNeverDeletes(files: map<Id, GpRecord>, conns: seq<Connection>)
    requires AllFit(conns)
    ensures files.Keys <= Run(files, conns).Keys
    decreases |conns|
  {
    if conns != [] {
      var init := conns[..|conns| - 1];
      RunNeverDeletes(files, init);
      StepNeverDeletes(Run(files, init), conns[|conns| - 1]);
    }
  }

  /** Without a new issue for `id`, a run never creates its record: updates
      of an absent number create nothing. */
  lemma {:induction false} AbsentStaysAbsent(files: map<Id, GpRecord>, conns: seq<Connection>, id: Id)
    requires AllFit(conns)
    requires id !in files
    requires forall i :: 0 <= i < |conns| ==> !Issues(conns[i], id)
    ensures id !in Run(files, conns)
    decreases |conns|
  {
    if conns != [] {
      AbsentStaysAbsent(files, conns[..|conns| - 1], id);
    }
  }

  /** Without a new issue for `id`, a run changes at most the flag of its
      record: the number and both dates stay as they were. */
  lemma {:induction false} OnlyIssueChangesDates(files: map<Id, GpRecord>, conns: seq<Connection>, id: Id)
    requires AllFit(conns)
    requires id in files
    requires forall i :: 0 <= i < |conns| ==> !Issues(conns[i], id)
    ensures id in Run(files, conns)
    ensures Run(files, conns)[id].id == files[id].id
    ensures Run(files, conns)[id].start == files[id].start
    ensures Run(files, conns)[id].expire == files[id].expire
    decreases |conns|
  {
    if conns != [] {
      OnlyIssueChangesDates(files, conns[..|conns| - 1], id);
    }
  }
}
